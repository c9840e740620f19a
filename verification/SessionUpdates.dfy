/** What the session endpoints share: checking an update, and collecting its allocations. */
module SessionUpdates {
  import opened Options
  import opened Sums
  import opened Decimals
  import opened Channels
  import opened Packing
  import opened Quorum
  import opened Allocations
  import opened NodeModel
  import opened Invariants
  import opened Database

  method GetParticipantWeights(participants: seq<Participant>) returns (weights: map<Wallet, Weight>)
    ensures weights == Weights(participants)
  {
    weights := map[];
    for i := 0 to |participants|
      invariant weights == Weights(participants[..i])
    {
      assert participants[..i + 1][..i] == participants[..i];
      weights := weights[participants[i].wallet := participants[i].weight];
    }
    assert participants[..|participants|] == participants;
  }

  /** The session of an update, and its weights, if the update is authorized. */
  method Authorize(cfg: Config, store: Store, su: SignedUpdate)
    returns (ok: bool, session: Session, weights: map<Wallet, Weight>)
    ensures ok <==> Authorized(cfg, store.Snapshot(), su)
    ensures ok ==> session == store.sessions[su.update.session]
    ensures ok ==> weights == WeightsIn(store.Snapshot(), su.update.session)
  {
    var u := su.update;
    session, weights := Session("", [], 0, 0, Closed, 0, ""), map[];
    if |u.data| > cfg.maxSessionData { return false, session, weights; }
    if u.session !in store.sessions { return false, session, weights; }
    session := store.sessions[u.session];
    if session.status == Closed { return false, session, weights; }
    if !su.allowed { return false, session, weights; }
    if |su.signers| > |session.participants| { return false, session, weights; }
    if u.version != session.version + 1 { return false, session, weights; }
    weights := GetParticipantWeights(session.participants);
    if |su.signers| == 0 { return false, session, weights; }
    ok := VerifyQuorum(weights, session.quorum, su.signers);
  }

  /** The store's view of a session: all its slots, since each belongs to a participant. */
  method CurrentAllocations(store: Store, session: Id, weights: map<Wallet, Weight>, ghost ns: NodeState)
    returns (cur: map<Slot, real>)
    requires SlotsValid(ns) && weights == WeightsIn(ns, session) && store.entries == ns.entries
    ensures cur == CurrentOf(ns, session)
  {
    cur := GetParticipantAllocations(store.entries, session, weights.Keys);
    forall k | k in Allocated(ns.entries) && k.session == session ensures k.wallet in weights {
      assert SlotValid(ns, k, Allocated(ns.entries)[k]);
    }
  }

  // ---------- Incoming allocations ----------

  /** What is asked of every listed allocation: of participants unless anyone may be listed,
      not negative, and, where it is checked, precise. */
  predicate AllocationOk(a: Allocation, weights: Option<map<Wallet, Weight>>, store: Option<AssetStore>) {
    && (weights.Some? ==> a.participant in weights.value)
    && a.amount.value >= 0.0
    && (store.Some? ==> store.value.AssetDecimals(a.asset).Some?
                        && PrecisionValid(a.amount, store.value.AssetDecimals(a.asset).value))
  }

  ghost predicate AllocationsOk(session: Id, allocations: seq<Allocation>, weights: Option<map<Wallet, Weight>>,
                                store: Option<AssetStore>)
  {
    NoDuplicates(session, allocations) && forall a :: a in allocations ==> AllocationOk(a, weights, store)
  }

  lemma ListedKeys(session: Id, allocations: seq<Allocation>, k: Slot)
    ensures k in Listed(session, allocations) <==>
      exists i :: 0 <= i < |allocations| && SlotOf(session, allocations[i]) == k
  {
    ListedSlots(session, allocations);
    if exists i :: 0 <= i < |allocations| && SlotOf(session, allocations[i]) == k {
      var i :| 0 <= i < |allocations| && SlotOf(session, allocations[i]) == k;
      ListedHas(session, allocations, i);
    }
  }

  lemma {:induction false} ListedHas(session: Id, allocations: seq<Allocation>, i: nat)
    requires i < |allocations|
    ensures SlotOf(session, allocations[i]) in Listed(session, allocations)
  {
    var n := |allocations| - 1;
    if i < n {
      ListedHas(session, allocations[..n], i);
    }
  }

  /** One more allocation: a duplicate exactly if its slot is listed already. */
  lemma ListedMore(session: Id, allocations: seq<Allocation>, i: nat)
    requires i < |allocations| && NoDuplicates(session, allocations[..i])
    ensures var a, before := allocations[i], Listed(session, allocations[..i]);
      && Listed(session, allocations[..i + 1]) == before[SlotOf(session, a) := a.amount.value]
      && (SlotOf(session, a) in before ==> !NoDuplicates(session, allocations))
      && (SlotOf(session, a) !in before ==> NoDuplicates(session, allocations[..i + 1]))
  {
    var a := allocations[i];
    assert allocations[..i + 1][..i] == allocations[..i];
    ListedKeys(session, allocations[..i], SlotOf(session, a));
    if SlotOf(session, a) in Listed(session, allocations[..i]) {
      var j :| 0 <= j < i && SlotOf(session, allocations[..i][j]) == SlotOf(session, a);
      assert SlotOf(session, allocations[j]) == SlotOf(session, allocations[i]);
    } else {
      forall j, l | 0 <= j < l < i + 1 ensures SlotOf(session, allocations[j]) != SlotOf(session, allocations[l]) {
        assert SlotOf(session, allocations[..i][j]) == SlotOf(session, allocations[j]);
        if l < i {
          assert SlotOf(session, allocations[..i][l]) == SlotOf(session, allocations[l]);
        }
      }
    }
  }

  lemma ExponentsMore(session: Id, allocations: seq<Allocation>, i: nat)
    requires i < |allocations|
    ensures var a := allocations[i];
      Exponents(session, allocations[..i + 1])
        == Exponents(session, allocations[..i])[SlotOf(session, a) := a.amount.exponent]
  {
    assert allocations[..i + 1][..i] == allocations[..i];
  }

  /** Builds the maps of incoming allocations, and checks each of them. */
  method CollectAllocations(session: Id, allocations: seq<Allocation>, weights: Option<map<Wallet, Weight>>,
                            store: Option<AssetStore>)
    returns (ok: bool, incoming: map<Slot, real>, exponents: map<Slot, int>)
    ensures ok <==> AllocationsOk(session, allocations, weights, store)
    ensures ok ==> incoming == Listed(session, allocations) && exponents == Exponents(session, allocations)
  {
    incoming, exponents := map[], map[];
    for i := 0 to |allocations|
      invariant incoming == Listed(session, allocations[..i]) && NoDuplicates(session, allocations[..i])
      invariant exponents == Exponents(session, allocations[..i])
      invariant forall a :: a in allocations[..i] ==> AllocationOk(a, weights, store)
    {
      ListedMore(session, allocations, i);
      ExponentsMore(session, allocations, i);
      var a := allocations[i];
      assert a in allocations;
      if weights.Some? && a.participant !in weights.value { return false, incoming, exponents; }
      if a.amount.value < 0.0 { return false, incoming, exponents; }
      if store.Some? {
        var decimals := store.value.AssetDecimals(a.asset);
        if decimals.None? { return false, incoming, exponents; }
        if !PrecisionValid(a.amount, decimals.value) { return false, incoming, exponents; }
      }
      var k := SlotOf(session, a);
      if k in incoming { return false, incoming, exponents; }
      incoming, exponents := incoming[k := a.amount.value], exponents[k := a.amount.exponent];
    }
    assert allocations[..|allocations|] == allocations;
    ok := true;
  }

  // ---------- Recording ----------

  /** Of a set that a loop goes through, what it has seen once it takes k from the rest. */
  lemma DoneMore<T>(whole: set<T>, rest: set<T>, k: T)
    requires rest <= whole && k in rest
    ensures whole - rest + {k} == whole - (rest - {k})
    ensures k !in whole - rest
  {}

  lemma DoneAll<T>(whole: set<T>)
    ensures whole - {} == whole
  {}

  /** Since ns nothing but ledger entries has been added, and they list these changes. */
  ghost predicate Recorded(ns: NodeState, changes: map<Slot, real>, now: NodeState) {
    && now == ns.(entries := now.entries)
    && |ns.entries| <= |now.entries| && now.entries[..|ns.entries|] == ns.entries
    && Lists(now.entries[|ns.entries|..], changes)
  }

  lemma NothingRecorded(ns: NodeState)
    ensures Recorded(ns, map[], ns)
  {
    assert ns.entries[..|ns.entries|] == ns.entries;
  }

  lemma RecordedMore(entries: seq<Entry>, n: nat, changes: map<Slot, real>, slot: Slot, amount: real)
    requires n <= |entries| && Lists(entries[n..], changes) && slot !in changes
    ensures var more := entries + [Entry(slot, amount)];
      more[..n] == entries[..n] && Lists(more[n..], changes[slot := amount])
  {
    ListsMore(entries[n..], changes, slot, amount);
    assert (entries + [Entry(slot, amount)])[n..] == entries[n..] + [Entry(slot, amount)];
  }

  /** Records a change of a slot that has not been recorded yet. */
  method RecordChange(store: Store, slot: Slot, amount: real, ghost ns: NodeState, ghost changes: map<Slot, real>)
    requires Recorded(ns, changes, store.Snapshot()) && slot !in changes && amount != 0.0
    modifies store`entries
    ensures Recorded(ns, changes[slot := amount], store.Snapshot())
  {
    RecordedMore(store.entries, |ns.entries|, changes, slot, amount);
    store.RecordLedgerEntry(slot, amount);
  }

  // ---------- Changes of slots that hold something ----------

  /** The changes of those of these slots that hold something. */
  function FromCurrent(cur: map<Slot, real>, target: map<Slot, real>, done: set<Slot>): map<Slot, real> {
    map k | k in done && Get(cur, k) != 0.0 && Get(target, k) != cur[k] :: Get(target, k) - cur[k]
  }

  lemma FromCurrentMore(cur: map<Slot, real>, target: map<Slot, real>, done: set<Slot>, k: Slot)
    requires k !in done && k in cur
    ensures k !in FromCurrent(cur, target, done)
    ensures FromCurrent(cur, target, done + {k}) ==
            if cur[k] == 0.0 || Get(target, k) == cur[k] then FromCurrent(cur, target, done)
            else FromCurrent(cur, target, done)[k := Get(target, k) - cur[k]]
  {}
}
