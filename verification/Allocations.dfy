/** The app ledger: an append-only list of entries, and the allocations it amounts to. */
module Allocations {
  import opened Sums
  import opened Channels

  /** An allocation belongs to one participant and one asset of one session. */
  datatype Slot = Slot(session: Id, wallet: Wallet, asset: Asset)

  datatype Entry = Entry(slot: Slot, amount: real)

  /** The balance of every slot that has an entry; a slot that was emptied stays, at zero. */
  function Allocated(entries: seq<Entry>): map<Slot, real> {
    if entries == [] then map[]
    else
      var n := |entries| - 1;
      var before := Allocated(entries[..n]);
      before[entries[n].slot := Get(before, entries[n].slot) + entries[n].amount]
  }

  function OfSession(m: map<Slot, real>, session: Id): map<Slot, real> {
    map k | k in m && k.session == session :: m[k]
  }

  function OfAsset(m: map<Slot, real>, asset: Asset): map<Slot, real> {
    map k | k in m && k.asset == asset :: m[k]
  }

  /** What has to be recorded to get from cur to target, where absent means zero. */
  function Delta(cur: map<Slot, real>, target: map<Slot, real>): map<Slot, real> {
    map k | k in cur.Keys + target.Keys && Get(target, k) != Get(cur, k) :: Get(target, k) - Get(cur, k)
  }

  /** The entries list exactly these changes, each slot once, in any order. */
  predicate Lists(entries: seq<Entry>, changes: map<Slot, real>) {
    if entries == [] then changes == map[]
    else
      var n := |entries| - 1;
      var e := entries[n];
      e.slot in changes && changes[e.slot] == e.amount && Lists(entries[..n], changes - {e.slot})
  }

  lemma ListsMore(entries: seq<Entry>, changes: map<Slot, real>, slot: Slot, amount: real)
    requires Lists(entries, changes) && slot !in changes
    ensures Lists(entries + [Entry(slot, amount)], changes[slot := amount])
  {
    var more := entries + [Entry(slot, amount)];
    assert more[..|entries|] == entries;
    assert changes[slot := amount] - {slot} == changes;
  }

  /** Listed changes are recorded at most once per slot. */
  lemma {:induction false} ListsOnce(entries: seq<Entry>, changes: map<Slot, real>, i: nat, j: nat)
    requires Lists(entries, changes) && i < j < |entries|
    ensures entries[i].slot != entries[j].slot
    decreases |entries|
  {
    var n := |entries| - 1;
    if j < n {
      ListsOnce(entries[..n], changes - {entries[n].slot}, i, j);
    } else {
      ListsOnly(entries[..n], changes - {entries[n].slot}, i);
    }
  }

  lemma {:induction false} ListsOnly(entries: seq<Entry>, changes: map<Slot, real>, i: nat)
    requires Lists(entries, changes) && i < |entries|
    ensures entries[i].slot in changes && entries[i].amount == changes[entries[i].slot]
    decreases |entries|
  {
    var n := |entries| - 1;
    if i < n {
      ListsOnly(entries[..n], changes - {entries[n].slot}, i);
    }
  }

  /** Recording changes adds them to the allocations, slot by slot. */
  lemma {:induction false} RecordingAdds(entries: seq<Entry>, added: seq<Entry>, changes: map<Slot, real>)
    requires Lists(added, changes)
    ensures Allocated(entries + added).Keys == Allocated(entries).Keys + changes.Keys
    ensures forall k :: Get(Allocated(entries + added), k) == Get(Allocated(entries), k) + Get(changes, k)
    decreases |added|
  {
    if added == [] {
      assert entries + added == entries;
    } else {
      var n := |added| - 1;
      var e := added[n];
      RecordingAdds(entries, added[..n], changes - {e.slot});
      assert (entries + added)[..|entries| + n] == entries + added[..n];
    }
  }

  /** After recording the delta, every slot that either side knows holds its target. */
  lemma DeltaReached(cur: map<Slot, real>, target: map<Slot, real>, k: Slot)
    ensures Get(cur, k) + Get(Delta(cur, target), k) == Get(target, k)
  {}

  /** The funds of an asset over all sessions. */
  ghost function Funds(entries: seq<Entry>, asset: Asset): real {
    Sum(OfAsset(Allocated(entries), asset))
  }

  lemma FundsChange(entries: seq<Entry>, added: seq<Entry>, changes: map<Slot, real>, asset: Asset)
    requires Lists(added, changes)
    ensures Funds(entries + added, asset) == Funds(entries, asset) + Sum(OfAsset(changes, asset))
  {
    RecordingAdds(entries, added, changes);
    SumOfAssetPlus(Allocated(entries), changes, Allocated(entries + added), asset);
  }

  lemma SumOfAssetPlus(a: map<Slot, real>, b: map<Slot, real>, c: map<Slot, real>, asset: Asset)
    requires forall k :: Get(c, k) == Get(a, k) + Get(b, k)
    ensures Sum(OfAsset(c, asset)) == Sum(OfAsset(a, asset)) + Sum(OfAsset(b, asset))
  {
    forall k ensures Get(OfAsset(c, asset), k) == Get(OfAsset(a, asset), k) + Get(OfAsset(b, asset), k) {
      assert Get(c, k) == Get(a, k) + Get(b, k);
    }
    SumPlus(OfAsset(a, asset), OfAsset(b, asset), OfAsset(c, asset));
  }

  /** The same, of a ledger that has grown. */
  lemma FundsRecorded(before: seq<Entry>, after: seq<Entry>, changes: map<Slot, real>, asset: Asset)
    requires |before| <= |after| && after[..|before|] == before && Lists(after[|before|..], changes)
    ensures Funds(after, asset) == Funds(before, asset) + Sum(OfAsset(changes, asset))
  {
    assert after == before + after[|before|..];
    FundsChange(before, after[|before|..], changes, asset);
  }

  lemma SumOneAsset(changes: map<Slot, real>, only: Asset, asset: Asset)
    requires forall k :: k in changes ==> k.asset == only
    ensures Sum(OfAsset(changes, asset)) == if asset == only then Sum(changes) else 0.0
  {
    assert OfAsset(changes, asset) == if asset == only then changes else map[];
  }

  lemma SumNoChange(asset: Asset)
    ensures Sum(OfAsset(map[], asset)) == 0.0
  {
    assert OfAsset(map[], asset) == map[];
  }

  /** The total change of an asset is the difference of the totals. */
  lemma DeltaSum(cur: map<Slot, real>, target: map<Slot, real>, asset: Asset)
    ensures Sum(OfAsset(Delta(cur, target), asset)) == Sum(OfAsset(target, asset)) - Sum(OfAsset(cur, asset))
  {
    forall k ensures Get(target, k) == Get(cur, k) + Get(Delta(cur, target), k) {
      DeltaReached(cur, target, k);
    }
    SumOfAssetPlus(cur, Delta(cur, target), target, asset);
  }

  lemma SumChange(m: map<Slot, real>, k: Slot, v: real, asset: Asset)
    ensures Sum(OfAsset(m[k := v], asset)) == Sum(OfAsset(m, asset)) + (if k.asset == asset then v - Get(m, k) else 0.0)
  {
    if k.asset == asset {
      assert OfAsset(m[k := v], asset) == OfAsset(m, asset)[k := v];
      SumUpdate(OfAsset(m, asset), k, v);
    } else {
      assert OfAsset(m[k := v], asset) == OfAsset(m, asset);
    }
  }

  /** The slots of a session that belong to its participants. */
  function Visible(m: map<Slot, real>, session: Id, participants: set<Wallet>): map<Slot, real> {
    map k | k in m && k.session == session && k.wallet in participants :: m[k]
  }

  lemma VisibleUpdate(m: map<Slot, real>, k: Slot, v: real, session: Id, participants: set<Wallet>)
    ensures Visible(m[k := v], session, participants)
      == if k.session == session && k.wallet in participants then Visible(m, session, participants)[k := v]
         else Visible(m, session, participants)
    ensures k.session == session && k.wallet in participants ==> Get(Visible(m, session, participants), k) == Get(m, k)
  {}

  lemma AllocatedMore(entries: seq<Entry>, i: nat)
    requires i < |entries|
    ensures var before, e := Allocated(entries[..i]), entries[i];
      Allocated(entries[..i + 1]) == before[e.slot := Get(before, e.slot) + e.amount]
  {
    assert entries[..i + 1][..i] == entries[..i];
  }

  lemma VisibleMore(entries: seq<Entry>, i: nat, session: Id, participants: set<Wallet>)
    requires i < |entries|
    ensures var v, e := Visible(Allocated(entries[..i]), session, participants), entries[i];
      Visible(Allocated(entries[..i + 1]), session, participants) ==
      if e.slot.session == session && e.slot.wallet in participants then v[e.slot := Get(v, e.slot) + e.amount] else v
  {
    var before, e := Allocated(entries[..i]), entries[i];
    AllocatedMore(entries, i);
    VisibleUpdate(before, e.slot, Get(before, e.slot) + e.amount, session, participants);
  }

  /** The store's query: the balance of every slot of a session, grouped from its entries. */
  method GetParticipantAllocations(entries: seq<Entry>, session: Id, participants: set<Wallet>)
    returns (allocations: map<Slot, real>)
    ensures allocations == Visible(Allocated(entries), session, participants)
  {
    allocations := map[];
    for i := 0 to |entries|
      invariant allocations == Visible(Allocated(entries[..i]), session, participants)
    {
      var e := entries[i];
      VisibleMore(entries, i, session, participants);
      if e.slot.session == session && e.slot.wallet in participants {
        allocations := allocations[e.slot := Get(allocations, e.slot) + e.amount];
      }
    }
    assert entries[..|entries|] == entries;
  }

  /** What a session holds of an asset. */
  ghost function SessionBalance(m: map<Slot, real>, session: Id, asset: Asset): real {
    Sum(OfAsset(OfSession(m, session), asset))
  }

  /** The store's query: the balance of every asset of a session, summed from its entries. */
  method GetAppSessionBalances(entries: seq<Entry>, session: Id) returns (balances: map<Asset, real>)
    ensures forall a :: Get(balances, a) == SessionBalance(Allocated(entries), session, a)
  {
    balances := map[];
    for i := 0 to |entries|
      invariant forall a :: Get(balances, a) == SessionBalance(Allocated(entries[..i]), session, a)
    {
      BalancesStep(entries, session, i);
      var e := entries[i];
      ghost var before := balances;
      if e.slot.session == session {
        balances := balances[e.slot.asset := Get(balances, e.slot.asset) + e.amount];
      }
      forall a ensures Get(balances, a) == SessionBalance(Allocated(entries[..i + 1]), session, a) {
        assert Get(before, a) == SessionBalance(Allocated(entries[..i]), session, a);
      }
    }
    assert entries[..|entries|] == entries;
  }

  lemma BalancesStep(entries: seq<Entry>, session: Id, i: nat)
    requires i < |entries|
    ensures forall a :: SessionBalance(Allocated(entries[..i + 1]), session, a)
                     == SessionBalance(Allocated(entries[..i]), session, a)
                        + (if entries[i].slot.session == session && entries[i].slot.asset == a then entries[i].amount
                           else 0.0)
  {
    AllocatedMore(entries, i);
    var e := entries[i];
    var before, after := Allocated(entries[..i]), Allocated(entries[..i + 1]);
    forall a ensures SessionBalance(after, session, a) == SessionBalance(before, session, a)
                     + (if e.slot.session == session && e.slot.asset == a then e.amount else 0.0) {
      BalanceUpdate(before, e.slot, e.amount, session, a);
    }
  }

  lemma BalanceUpdate(m: map<Slot, real>, k: Slot, x: real, session: Id, asset: Asset)
    ensures SessionBalance(m[k := Get(m, k) + x], session, asset)
         == SessionBalance(m, session, asset) + (if k.session == session && k.asset == asset then x else 0.0)
  {
    var after := m[k := Get(m, k) + x];
    if k.session == session {
      assert OfSession(after, session) == OfSession(m, session)[k := Get(m, k) + x];
      SumChange(OfSession(m, session), k, Get(m, k) + x, asset);
    } else {
      assert OfSession(after, session) == OfSession(m, session);
    }
  }
}
