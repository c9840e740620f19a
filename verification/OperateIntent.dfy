/** The operate intent: funds of a session are redistributed between its participants. */
module OperateIntent {
  import opened Options
  import opened Sums
  import opened Decimals
  import opened Channels
  import opened Quorum
  import opened Allocations
  import opened NodeModel
  import opened Database
  import opened SessionUpdates

  // ---------- The two recording loops ----------

  /** The part that the second loop records: slots among these that hold nothing yet. */
  function FromIncoming(cur: map<Slot, real>, incoming: map<Slot, real>, done: set<Slot>): map<Slot, real> {
    map k | k in done && Get(cur, k) == 0.0 && Get(incoming, k) != 0.0 :: Get(incoming, k)
  }

  /** The two parts make up the delta, and no slot is in both. */
  lemma PartsMakeDelta(cur: map<Slot, real>, incoming: map<Slot, real>)
    requires forall k :: k in cur && cur[k] != 0.0 ==> k in incoming
    ensures FromCurrent(cur, incoming, cur.Keys) + FromIncoming(cur, incoming, incoming.Keys) == Delta(cur, incoming)
  {}

  lemma FromIncomingMore(cur: map<Slot, real>, incoming: map<Slot, real>, done: set<Slot>, k: Slot)
    requires k !in done && k in incoming
    ensures k !in FromIncoming(cur, incoming, done)
    ensures FromIncoming(cur, incoming, done + {k}) ==
            if incoming[k] == 0.0 || Get(cur, k) != 0.0 then FromIncoming(cur, incoming, done)
            else FromIncoming(cur, incoming, done)[k := incoming[k]]
  {}

  /** A slot that holds something must be listed; its change is recorded. */
  method RecordCurrentSlot(store: Store, cur: map<Slot, real>, incoming: map<Slot, real>, k: Slot,
                           ghost ns: NodeState, ghost done: set<Slot>) returns (ok: bool)
    requires k in cur && k !in done && Recorded(ns, FromCurrent(cur, incoming, done), store.Snapshot())
    modifies store`entries
    ensures ok <==> (cur[k] != 0.0 ==> k in incoming)
    ensures ok ==> Recorded(ns, FromCurrent(cur, incoming, done + {k}), store.Snapshot())
  {
    if cur[k] == 0.0 {
      FromCurrentMore(cur, incoming, done, k);
      return true;
    }
    if k !in incoming { return false; }
    FromCurrentMore(cur, incoming, done, k);
    var diff := incoming[k] - cur[k];
    if diff != 0.0 {
      RecordChange(store, k, diff, ns, FromCurrent(cur, incoming, done));
    }
    return true;
  }

  method RecordCurrent(store: Store, cur: map<Slot, real>, incoming: map<Slot, real>) returns (ok: bool)
    modifies store`entries
    ensures ok <==> forall k :: k in cur && cur[k] != 0.0 ==> k in incoming
    ensures ok ==> Recorded(old(store.Snapshot()), FromCurrent(cur, incoming, cur.Keys), store.Snapshot())
  {
    ghost var ns := store.Snapshot();
    NothingRecorded(ns);
    var rest := cur.Keys;
    assert FromCurrent(cur, incoming, cur.Keys - rest) == map[];
    while rest != {}
      invariant rest <= cur.Keys
      invariant forall k :: k in cur.Keys - rest && cur[k] != 0.0 ==> k in incoming
      invariant Recorded(ns, FromCurrent(cur, incoming, cur.Keys - rest), store.Snapshot())
      decreases |rest|
    {
      var k :| k in rest;
      ok := RecordCurrentSlot(store, cur, incoming, k, ns, cur.Keys - rest);
      if !ok { return; }
      DoneMore(cur.Keys, rest, k);
      rest := rest - {k};
    }
    DoneAll(cur.Keys);
    return true;
  }

  /** What is recorded once the second loop has seen these slots. */
  function WithIncoming(before: map<Slot, real>, cur: map<Slot, real>, incoming: map<Slot, real>,
                        done: set<Slot>): map<Slot, real>
  {
    before + FromIncoming(cur, incoming, done)
  }

  lemma NoneIncoming(before: map<Slot, real>, cur: map<Slot, real>, incoming: map<Slot, real>)
    ensures WithIncoming(before, cur, incoming, incoming.Keys - incoming.Keys) == before
  {
    assert FromIncoming(cur, incoming, incoming.Keys - incoming.Keys) == map[];
  }

  lemma WithIncomingMore(before: map<Slot, real>, cur: map<Slot, real>, incoming: map<Slot, real>, done: set<Slot>,
                         k: Slot)
    requires k !in done && k in incoming && (k in before ==> Get(cur, k) != 0.0)
    ensures incoming[k] != 0.0 && Get(cur, k) == 0.0 ==> k !in WithIncoming(before, cur, incoming, done)
    ensures WithIncoming(before, cur, incoming, done + {k}) ==
            if incoming[k] == 0.0 || Get(cur, k) != 0.0 then WithIncoming(before, cur, incoming, done)
            else WithIncoming(before, cur, incoming, done)[k := incoming[k]]
  {
    FromIncomingMore(cur, incoming, done, k);
  }

  /** A listed amount at a slot that holds nothing yet is recorded as it is. */
  method RecordIncomingSlot(store: Store, cur: map<Slot, real>, incoming: map<Slot, real>, k: Slot,
                            ghost ns: NodeState, ghost before: map<Slot, real>, ghost done: set<Slot>)
    requires k in incoming && k !in done && Recorded(ns, WithIncoming(before, cur, incoming, done), store.Snapshot())
    requires k in before ==> Get(cur, k) != 0.0
    modifies store`entries
    ensures Recorded(ns, WithIncoming(before, cur, incoming, done + {k}), store.Snapshot())
  {
    WithIncomingMore(before, cur, incoming, done, k);
    if incoming[k] != 0.0 && Get(cur, k) == 0.0 {
      RecordChange(store, k, incoming[k], ns, WithIncoming(before, cur, incoming, done));
    }
  }

  method RecordIncoming(store: Store, cur: map<Slot, real>, incoming: map<Slot, real>,
                        ghost ns: NodeState, ghost before: map<Slot, real>)
    requires Recorded(ns, before, store.Snapshot())
    requires forall k :: k in before ==> Get(cur, k) != 0.0
    modifies store`entries
    ensures Recorded(ns, WithIncoming(before, cur, incoming, incoming.Keys), store.Snapshot())
  {
    var rest := incoming.Keys;
    NoneIncoming(before, cur, incoming);
    while rest != {}
      invariant rest <= incoming.Keys
      invariant Recorded(ns, WithIncoming(before, cur, incoming, incoming.Keys - rest), store.Snapshot())
      decreases |rest|
    {
      var k :| k in rest;
      RecordIncomingSlot(store, cur, incoming, k, ns, before, incoming.Keys - rest);
      DoneMore(incoming.Keys, rest, k);
      rest := rest - {k};
    }
    DoneAll(incoming.Keys);
  }

  // ---------- The totals ----------

  /** The total of every asset that is listed. */
  method SumPerAsset(session: Id, allocations: seq<Allocation>) returns (totals: map<Asset, real>)
    requires NoDuplicates(session, allocations)
    ensures forall a :: Get(totals, a) == Sum(OfAsset(Listed(session, allocations), a))
  {
    totals := map[];
    assert forall a :: OfAsset(Listed(session, allocations[..0]), a) == map[];
    for i := 0 to |allocations|
      invariant forall a :: Get(totals, a) == Sum(OfAsset(Listed(session, allocations[..i]), a))
    {
      ListedMore(session, allocations, i);
      var x := allocations[i];
      ghost var before := totals;
      totals := totals[x.asset := Get(totals, x.asset) + x.amount.value];
      forall a ensures Get(totals, a) == Sum(OfAsset(Listed(session, allocations[..i + 1]), a)) {
        assert Get(before, a) == Sum(OfAsset(Listed(session, allocations[..i]), a));
        SumChange(Listed(session, allocations[..i]), SlotOf(session, x), x.amount.value, a);
      }
    }
    assert allocations[..|allocations|] == allocations;
  }

  /** The listed totals and the session's balances agree for every asset that either knows. */
  method CompareTotals(totals: map<Asset, real>, balances: map<Asset, real>) returns (ok: bool)
    ensures ok <==> forall a :: Get(totals, a) == Get(balances, a)
  {
    var rest := totals.Keys;
    while rest != {}
      invariant rest <= totals.Keys
      invariant forall a :: a in totals.Keys - rest ==> totals[a] == Get(balances, a)
      decreases |rest|
    {
      var a :| a in rest;
      rest := rest - {a};
      if totals[a] != Get(balances, a) {
        assert Get(totals, a) != Get(balances, a);
        return false;
      }
    }
    rest := balances.Keys;
    while rest != {}
      invariant rest <= balances.Keys
      invariant forall a :: a in balances.Keys - rest && balances[a] != 0.0 ==> a in totals
      decreases |rest|
    {
      var a :| a in rest;
      rest := rest - {a};
      if balances[a] == 0.0 { continue; }
      if a !in totals {
        assert Get(totals, a) != Get(balances, a);
        return false;
      }
    }
    assert forall a :: a in totals ==> a in totals.Keys - {} && totals[a] == Get(balances, a);
    assert forall a :: a in balances && balances[a] != 0.0 ==> a in balances.Keys - {} && a in totals;
    return true;
  }

  // ---------- The intent ----------

  lemma OperateChecks(cfg: Config, ns: NodeState, u: Update)
    ensures OperateOk(cfg, ns, u) <==>
      && AllocationsOk(u.session, u.allocations, Some(WeightsIn(ns, u.session)), Some(cfg.store))
      && (forall k :: k in CurrentOf(ns, u.session) && CurrentOf(ns, u.session)[k] != 0.0 ==> k in ListedBy(u))
      && (forall a :: Sum(OfAsset(ListedBy(u), a)) == SessionBalance(Allocated(ns.entries), u.session, a))
  {
    var weights, store := Some(WeightsIn(ns, u.session)), Some(cfg.store);
    forall a: Allocation ensures AllocationOk(a, weights, store) <==>
      a.participant in weights.value && a.amount.value >= 0.0 && cfg.store.AssetDecimals(a.asset).Some?
      && PrecisionValid(a.amount, cfg.store.AssetDecimals(a.asset).value) {}
  }

  method HandleOperateIntent(cfg: Config, store: Store, u: Update, cur: map<Slot, real>, weights: map<Wallet, Weight>)
    returns (ok: bool)
    requires cur == CurrentOf(store.Snapshot(), u.session) && weights == WeightsIn(store.Snapshot(), u.session)
    modifies store`entries
    ensures ok <==> OperateOk(cfg, old(store.Snapshot()), u)
    ensures ok ==> Recorded(old(store.Snapshot()), Delta(cur, ListedBy(u)), store.Snapshot())
  {
    ghost var ns := store.Snapshot();
    OperateChecks(cfg, ns, u);
    var balances := GetAppSessionBalances(store.entries, u.session);
    var incoming, exponents;
    ok, incoming, exponents := CollectAllocations(u.session, u.allocations, Some(weights), Some(cfg.store));
    if !ok { return; }
    var totals := SumPerAsset(u.session, u.allocations);
    ok := RecordCurrent(store, cur, incoming);
    if !ok { return; }
    RecordIncoming(store, cur, incoming, ns, FromCurrent(cur, incoming, cur.Keys));
    PartsMakeDelta(cur, incoming);
    ok := CompareTotals(totals, balances);
  }
}
