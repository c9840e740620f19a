/** What participants sign, allocation by allocation: which lists of allocations are accepted, and
    what the slots hold afterwards. */
module Listings {
  import opened Sums
  import opened Decimals
  import opened Channels
  import opened Chains
  import opened Quorum
  import opened Allocations
  import opened NodeModel
  import opened Invariants
  import opened Runs
  import opened Authority
  import opened Admission

  // ---------- Lists of allocations ----------

  predicate IsFor(x: Allocation, w: Wallet, a: Asset) {
    x.participant == w && x.asset == a
  }

  ghost predicate IsListed(list: seq<Allocation>, w: Wallet, a: Asset) {
    exists i :: 0 <= i < |list| && IsFor(list[i], w, a)
  }

  /** No wallet is listed twice with the same asset. */
  predicate OnceEach(list: seq<Allocation>) {
    forall i, j :: 0 <= i < j < |list| ==> !IsFor(list[i], list[j].participant, list[j].asset)
  }

  /** The amount that is listed for a wallet and an asset, or zero. */
  function AmountListed(list: seq<Allocation>, w: Wallet, a: Asset): real {
    if list == [] then 0.0
    else
      var x := list[|list| - 1];
      if IsFor(x, w, a) then x.amount.value else AmountListed(list[..|list| - 1], w, a)
  }

  function TotalListed(list: seq<Allocation>, a: Asset): real {
    if list == [] then 0.0
    else
      var x := list[|list| - 1];
      TotalListed(list[..|list| - 1], a) + if x.asset == a then x.amount.value else 0.0
  }

  lemma {:induction false} ListedIs(session: Id, list: seq<Allocation>, k: Slot)
    ensures k in Listed(session, list) <==> k.session == session && IsListed(list, k.wallet, k.asset)
    ensures k.session == session ==> Get(Listed(session, list), k) == AmountListed(list, k.wallet, k.asset)
  {
    if list != [] {
      var n := |list| - 1;
      ListedIs(session, list[..n], k);
      IsListedMore(list, k.wallet, k.asset);
    }
  }

  lemma IsListedMore(list: seq<Allocation>, w: Wallet, a: Asset)
    requires list != []
    ensures IsListed(list, w, a) <==> IsListed(list[..|list| - 1], w, a) || IsFor(list[|list| - 1], w, a)
  {
    var n := |list| - 1;
    if IsListed(list[..n], w, a) {
      var i :| 0 <= i < n && IsFor(list[..n][i], w, a);
      assert IsFor(list[i], w, a);
    }
    if IsListed(list, w, a) && !IsFor(list[n], w, a) {
      var i :| 0 <= i < |list| && IsFor(list[i], w, a);
      assert IsFor(list[..n][i], w, a);
    }
  }

  lemma OnceIff(session: Id, list: seq<Allocation>)
    ensures NoDuplicates(session, list) <==> OnceEach(list)
  {
    forall i, j | 0 <= i < j < |list|
      ensures SlotOf(session, list[i]) == SlotOf(session, list[j]) <==>
              IsFor(list[i], list[j].participant, list[j].asset)
    {}
  }

  lemma {:induction false} TotalIs(session: Id, list: seq<Allocation>, a: Asset)
    requires OnceEach(list)
    ensures Sum(OfAsset(Listed(session, list), a)) == TotalListed(list, a)
  {
    if list == [] {
      SumNoChange(a);
    } else {
      var n := |list| - 1;
      var x := list[n];
      TotalIs(session, list[..n], a);
      NewInList(list);
      ListedIs(session, list[..n], SlotOf(session, x));
      SumChange(Listed(session, list[..n]), SlotOf(session, x), x.amount.value, a);
    }
  }

  lemma NewInList(list: seq<Allocation>)
    requires list != [] && OnceEach(list)
    ensures var n := |list| - 1; OnceEach(list[..n]) && !IsListed(list[..n], list[n].participant, list[n].asset)
  {}

  // ---------- What a session holds ----------

  function Held(ns: NodeState, session: Id, w: Wallet, a: Asset): real {
    Get(Allocated(ns.entries), Slot(session, w, a))
  }

  lemma HeldIs(ns: NodeState, session: Id, k: Slot)
    ensures Get(CurrentOf(ns, session), k) == if k.session == session then Held(ns, session, k.wallet, k.asset) else 0.0
  {}

  /** Amounts that are not negative, of participants, each wallet and asset once. */
  predicate Proper(participants: seq<Participant>, list: seq<Allocation>) {
    OnceEach(list) && forall x :: x in list ==> Member(participants, x.participant) && x.amount.value >= 0.0
  }

  lemma ProperIff(ns: NodeState, u: Update)
    requires u.session in ns.sessions
    ensures Proper(ns.sessions[u.session].participants, u.allocations) <==>
      && ForParticipants(u.allocations, WeightsIn(ns, u.session)) && NonNegative(u.allocations)
      && NoDuplicates(u.session, u.allocations)
  {
    var participants := ns.sessions[u.session].participants;
    OnceIff(u.session, u.allocations);
    forall x | x in u.allocations
      ensures x.participant in WeightsIn(ns, u.session) <==> Member(participants, x.participant)
    {
      MembersWeigh(participants, x.participant);
    }
  }

  /** The asset is known, and has as many digits as the amount is written with. */
  predicate InDigits(cfg: Config, a: Asset, exponent: int) {
    var decimals := cfg.store.AssetDecimals(a);
    decimals.Some? && -exponent <= decimals.value
  }

  predicate AllInDigits(cfg: Config, list: seq<Allocation>) {
    forall x :: x in list ==> InDigits(cfg, x.asset, x.amount.exponent)
  }

  lemma DigitsIff(cfg: Config, list: seq<Allocation>)
    ensures Precise(list, cfg.store) <==> AllInDigits(cfg, list)
  {
    forall x | x in list
      ensures InDigits(cfg, x.asset, x.amount.exponent) <==>
        cfg.store.AssetDecimals(x.asset).Some? && PrecisionValid(x.amount, cfg.store.AssetDecimals(x.asset).value)
    {}
  }

  // ---------- Operate ----------

  /** Everything the session holds is listed, and of each asset as much is listed as there is. */
  ghost predicate Redistributes(cfg: Config, ns: NodeState, u: Update)
    requires u.session in ns.sessions
  {
    && Proper(ns.sessions[u.session].participants, u.allocations) && AllInDigits(cfg, u.allocations)
    && (forall w, a :: Held(ns, u.session, w, a) != 0.0 ==> IsListed(u.allocations, w, a))
    && (forall a :: TotalListed(u.allocations, a) == SessionBalance(Allocated(ns.entries), u.session, a))
  }

  /** What is held but not listed is found from either side. */
  lemma FundedIs(ns: NodeState, u: Update, k: Slot)
    ensures k.session == u.session ==>
      (k in CurrentOf(ns, u.session) && CurrentOf(ns, u.session)[k] != 0.0
       <==> Held(ns, u.session, k.wallet, k.asset) != 0.0)
    ensures k.session != u.session ==> k !in CurrentOf(ns, u.session)
    ensures k.session == u.session ==> (k in ListedBy(u) <==> IsListed(u.allocations, k.wallet, k.asset))
  {
    HeldIs(ns, u.session, k);
    ListedIs(u.session, u.allocations, k);
  }

  lemma OperateLists(cfg: Config, ns: NodeState, u: Update)
    requires u.session in ns.sessions && OperateOk(cfg, ns, u)
    ensures Redistributes(cfg, ns, u)
  {
    ProperIff(ns, u);
    DigitsIff(cfg, u.allocations);
    forall w, a | Held(ns, u.session, w, a) != 0.0 ensures IsListed(u.allocations, w, a) {
      FundedIs(ns, u, Slot(u.session, w, a));
    }
    forall a ensures TotalListed(u.allocations, a) == SessionBalance(Allocated(ns.entries), u.session, a) {
      TotalIs(u.session, u.allocations, a);
      assert Sum(OfAsset(ListedBy(u), a)) == Sum(OfAsset(CurrentOf(ns, u.session), a));
    }
  }

  lemma ListsOperate(cfg: Config, ns: NodeState, u: Update)
    requires u.session in ns.sessions && Redistributes(cfg, ns, u)
    ensures OperateOk(cfg, ns, u)
  {
    ProperIff(ns, u);
    DigitsIff(cfg, u.allocations);
    forall k | k in CurrentOf(ns, u.session) && CurrentOf(ns, u.session)[k] != 0.0 ensures k in ListedBy(u) {
      FundedIs(ns, u, k);
    }
    forall a ensures Sum(OfAsset(ListedBy(u), a)) == Sum(OfAsset(CurrentOf(ns, u.session), a)) {
      TotalIs(u.session, u.allocations, a);
      assert TotalListed(u.allocations, a) == SessionBalance(Allocated(ns.entries), u.session, a);
    }
  }

  // ---------- Withdraw and close ----------

  /** The node may bring a participant what leaves its slot. */
  lemma FreedIff(cfg: Config, ns: NodeState, session: Id, w: Wallet, a: Asset, amount: real)
    requires ChainsValid(cfg, ns)
    ensures CanIssue(cfg, ns, Key(w, a), Freed(session, amount)) <==>
            Receivable(cfg, ChainOf(ns.chains, Key(w, a)), amount)
  {
    IssuableIff(cfg, ns, Key(w, a), Freed(session, amount));
  }

  /** Exactly what the session holds is listed, and all of it can be brought to its participants. */
  ghost predicate TakesAll(cfg: Config, ns: NodeState, u: Update)
    requires u.session in ns.sessions
  {
    && Proper(ns.sessions[u.session].participants, u.allocations)
    && forall w, a :: TakenAt(cfg, ns, u, w, a)
  }

  ghost predicate TakenAt(cfg: Config, ns: NodeState, u: Update, w: Wallet, a: Asset) {
    var held := Held(ns, u.session, w, a);
    && AmountListed(u.allocations, w, a) == held
    && (held != 0.0 ==> Receivable(cfg, ChainOf(ns.chains, Key(w, a)), held))
  }

  lemma CloseLists(cfg: Config, ns: NodeState, u: Update)
    requires ChainsValid(cfg, ns) && u.session in ns.sessions && CloseOk(cfg, ns, u)
    ensures TakesAll(cfg, ns, u)
  {
    ProperIff(ns, u);
    forall w, a ensures TakenAt(cfg, ns, u, w, a) {
      var k := Slot(u.session, w, a);
      FundedIs(ns, u, k);
      ListedIs(u.session, u.allocations, k);
      FreedIff(cfg, ns, u.session, w, a, Held(ns, u.session, w, a));
    }
  }

  lemma ListsClose(cfg: Config, ns: NodeState, u: Update)
    requires ChainsValid(cfg, ns) && u.session in ns.sessions && TakesAll(cfg, ns, u)
    ensures CloseOk(cfg, ns, u)
  {
    ProperIff(ns, u);
    var cur, listed := CurrentOf(ns, u.session), ListedBy(u);
    forall k | k in cur && cur[k] != 0.0
      ensures k in listed && listed[k] == cur[k]
      ensures CanIssue(cfg, ns, Key(k.wallet, k.asset), Freed(u.session, cur[k]))
    {
      TakenIs(cfg, ns, u, k);
    }
    forall k | k in listed && listed[k] != 0.0 ensures Get(cur, k) != 0.0 {
      TakenIs(cfg, ns, u, k);
    }
  }

  lemma TakenIs(cfg: Config, ns: NodeState, u: Update, k: Slot)
    requires ChainsValid(cfg, ns) && u.session in ns.sessions && TakesAll(cfg, ns, u)
    requires k in CurrentOf(ns, u.session) || k in ListedBy(u)
    ensures k.session == u.session && Get(ListedBy(u), k) == Get(CurrentOf(ns, u.session), k)
    ensures Get(CurrentOf(ns, u.session), k) != 0.0 ==>
      CanIssue(cfg, ns, Key(k.wallet, k.asset), Freed(u.session, Get(CurrentOf(ns, u.session), k)))
  {
    ListedIs(u.session, u.allocations, k);
    HeldIs(ns, u.session, k);
    assert TakenAt(cfg, ns, u, k.wallet, k.asset);
    FreedIff(cfg, ns, u.session, k.wallet, k.asset, Held(ns, u.session, k.wallet, k.asset));
  }

  /** The exponent that the amount listed for a wallet and an asset is written with. */
  function ExponentListed(list: seq<Allocation>, w: Wallet, a: Asset): int {
    if list == [] then 0
    else
      var x := list[|list| - 1];
      if IsFor(x, w, a) then x.amount.exponent else ExponentListed(list[..|list| - 1], w, a)
  }

  lemma {:induction false} ExponentIs(session: Id, list: seq<Allocation>, k: Slot)
    requires k in Listed(session, list)
    ensures k in Exponents(session, list) && Exponents(session, list)[k] == ExponentListed(list, k.wallet, k.asset)
  {
    var n := |list| - 1;
    ListedIs(session, list, k);
    if k != SlotOf(session, list[n]) {
      ExponentIs(session, list[..n], k);
    }
  }

  /** Whatever the session holds is listed, and no more than that; what is lowered is written with no
      more digits than the asset has, in the list and by the database, and can be brought out. */
  ghost predicate TakesSome(cfg: Config, ns: NodeState, u: Update)
    requires u.session in ns.sessions
  {
    && Proper(ns.sessions[u.session].participants, u.allocations)
    && forall w, a :: LoweredAt(cfg, ns, u, w, a)
  }

  ghost predicate LoweredAt(cfg: Config, ns: NodeState, u: Update, w: Wallet, a: Asset) {
    var held, left := Held(ns, u.session, w, a), AmountListed(u.allocations, w, a);
    && left <= held && (held != 0.0 ==> IsListed(u.allocations, w, a))
    && (left < held ==>
          && InDigits(cfg, a, cfg.balanceExponent) && InDigits(cfg, a, ExponentListed(u.allocations, w, a))
          && Receivable(cfg, ChainOf(ns.chains, Key(w, a)), held - left))
  }

  lemma {:induction false} AmountNonNegative(list: seq<Allocation>, w: Wallet, a: Asset)
    requires forall x :: x in list ==> x.amount.value >= 0.0
    ensures AmountListed(list, w, a) >= 0.0
  {
    if list != [] {
      AmountNonNegative(list[..|list| - 1], w, a);
    }
  }

  /** What is asked of a listed slot that holds so much, if so much is to be left and so much lost. */
  ghost predicate SlotLowered(cfg: Config, ns: NodeState, u: Update, k: Slot, held: real, left: real, lost: real) {
    && left <= held
    && (left < held ==>
          && InDigits(cfg, k.asset, cfg.balanceExponent)
          && InDigits(cfg, k.asset, ExponentListed(u.allocations, k.wallet, k.asset))
          && CanIssue(cfg, ns, Key(k.wallet, k.asset), Freed(u.session, lost)))
  }

  lemma SlotLoweredIff(cfg: Config, ns: NodeState, u: Update, k: Slot, held: real, left: real, lost: real)
    requires k in ListedBy(u) && ListedBy(u)[k] == left && Get(CurrentOf(ns, u.session), k) == held
    requires lost == Get(CurrentOf(ns, u.session), k) - ListedBy(u)[k]
    ensures WithdrawSlotOk(cfg, ns, u, k) <==> SlotLowered(cfg, ns, u, k, held, left, lost)
  {
    ExponentIs(u.session, u.allocations, k);
    DifferenceDigits(cfg, k.asset, held, left, ExponentListed(u.allocations, k.wallet, k.asset));
  }

  lemma LoweredAtIff(cfg: Config, ns: NodeState, u: Update, k: Slot, held: real, left: real, lost: real)
    requires ChainsValid(cfg, ns) && k.session == u.session && IsListed(u.allocations, k.wallet, k.asset)
    requires held == Held(ns, u.session, k.wallet, k.asset) && left == AmountListed(u.allocations, k.wallet, k.asset)
    requires lost == Held(ns, u.session, k.wallet, k.asset) - AmountListed(u.allocations, k.wallet, k.asset)
    ensures LoweredAt(cfg, ns, u, k.wallet, k.asset) <==> SlotLowered(cfg, ns, u, k, held, left, lost)
  {
    FreedIff(cfg, ns, u.session, k.wallet, k.asset, lost);
  }

  /** One slot that the session holds something in. */
  lemma LoweredIff(cfg: Config, ns: NodeState, u: Update, k: Slot)
    requires ChainsValid(cfg, ns) && k.session == u.session && Held(ns, u.session, k.wallet, k.asset) != 0.0
    ensures WithdrawSlotOk(cfg, ns, u, k) <==> LoweredAt(cfg, ns, u, k.wallet, k.asset)
  {
    var held, left := Held(ns, u.session, k.wallet, k.asset), AmountListed(u.allocations, k.wallet, k.asset);
    HeldIs(ns, u.session, k);
    ListedIs(u.session, u.allocations, k);
    if k in ListedBy(u) {
      var lost: real :| lost == held - left;
      SlotLoweredIff(cfg, ns, u, k, held, left, lost);
      LoweredAtIff(cfg, ns, u, k, held, left, lost);
    }
  }

  /** The difference of a balance and an amount passes the check exactly if both are written with
      no more digits than the asset has, whatever their values are. */
  lemma DifferenceDigits(cfg: Config, a: Asset, balance: real, listed: real, exponent: int)
    ensures PreciseFor(cfg, a, Difference(cfg, balance, listed, exponent)) <==>
            InDigits(cfg, a, cfg.balanceExponent) && InDigits(cfg, a, exponent)
  {}

  lemma WithdrawLists(cfg: Config, ns: NodeState, u: Update)
    requires ChainsValid(cfg, ns) && SlotsValid(ns) && u.session in ns.sessions && WithdrawOk(cfg, ns, u)
    ensures TakesSome(cfg, ns, u)
  {
    ProperIff(ns, u);
    forall w, a ensures LoweredAt(cfg, ns, u, w, a) {
      var k := Slot(u.session, w, a);
      FundedIs(ns, u, k);
      ListedIs(u.session, u.allocations, k);
      AmountNonNegative(u.allocations, w, a);
      if Held(ns, u.session, w, a) != 0.0 {
        LoweredIff(cfg, ns, u, k);
      }
    }
  }

  lemma ListsWithdraw(cfg: Config, ns: NodeState, u: Update)
    requires ChainsValid(cfg, ns) && u.session in ns.sessions && TakesSome(cfg, ns, u)
    ensures WithdrawOk(cfg, ns, u)
  {
    ProperIff(ns, u);
    var cur, listed := CurrentOf(ns, u.session), ListedBy(u);
    forall k | k in cur && cur[k] != 0.0 ensures WithdrawSlotOk(cfg, ns, u, k) {
      HeldIs(ns, u.session, k);
      assert LoweredAt(cfg, ns, u, k.wallet, k.asset);
      LoweredIff(cfg, ns, u, k);
    }
    forall k | k in listed && listed[k] != 0.0 ensures Get(cur, k) != 0.0 {
      HeldIs(ns, u.session, k);
      ListedIs(u.session, u.allocations, k);
      AmountNonNegative(u.allocations, k.wallet, k.asset);
      assert LoweredAt(cfg, ns, u, k.wallet, k.asset);
    }
  }

  /** In every run an update on its own is accepted exactly if it is entitled, and its list is one of
      its intent. */
  lemma UpdateAcceptedIff(cfg: Config, states: seq<NodeState>, ops: seq<Op>, n: nat, su: SignedUpdate)
    requires Run(cfg, states, ops) && n < |ops| && ops[n] == SubmitUpdate(su)
    ensures Accepts(cfg, states[n], ops[n]) <==>
      && Entitled(cfg, states[n], su)
      && match su.update.intent
         case Operate => Redistributes(cfg, states[n], su.update)
         case Withdraw => TakesSome(cfg, states[n], su.update)
         case Close => TakesAll(cfg, states[n], su.update)
         case _ => false
  {
    RunInv(cfg, states, ops, n);
    AuthorizedIff(cfg, states, ops, n, su);
    if Entitled(cfg, states[n], su) {
      IntentIff(cfg, states[n], su.update);
    }
  }

  lemma IntentIff(cfg: Config, ns: NodeState, u: Update)
    requires Inv(cfg, ns) && u.session in ns.sessions
    ensures u.intent == Operate ==> (OperateOk(cfg, ns, u) <==> Redistributes(cfg, ns, u))
    ensures u.intent == Withdraw ==> (WithdrawOk(cfg, ns, u) <==> TakesSome(cfg, ns, u))
    ensures u.intent == Close ==> (CloseOk(cfg, ns, u) <==> TakesAll(cfg, ns, u))
  {
    match u.intent
    case Operate =>
      if OperateOk(cfg, ns, u) {
        OperateLists(cfg, ns, u);
      } else if Redistributes(cfg, ns, u) {
        ListsOperate(cfg, ns, u);
      }
    case Withdraw =>
      if WithdrawOk(cfg, ns, u) {
        WithdrawLists(cfg, ns, u);
      } else if TakesSome(cfg, ns, u) {
        ListsWithdraw(cfg, ns, u);
      }
    case Close =>
      if CloseOk(cfg, ns, u) {
        CloseLists(cfg, ns, u);
      } else if TakesAll(cfg, ns, u) {
        ListsClose(cfg, ns, u);
      }
    case _ =>
  }

  // ---------- Deposits ----------

  /** How much more is listed, all in all, than the listed slots hold. */
  function TotalRaised(ns: NodeState, session: Id, list: seq<Allocation>): real {
    if list == [] then 0.0
    else
      var x := list[|list| - 1];
      TotalRaised(ns, session, list[..|list| - 1]) + (x.amount.value - Held(ns, session, x.participant, x.asset))
  }

  lemma {:induction false} RaisedIs(ns: NodeState, session: Id, list: seq<Allocation>)
    requires OnceEach(list)
    ensures var cur := CurrentOf(ns, session);
      Sum(Delta(cur, cur + Listed(session, list))) == TotalRaised(ns, session, list)
  {
    var cur := CurrentOf(ns, session);
    if list == [] {
      assert Delta(cur, cur + map[]) == map[];
    } else {
      var n := |list| - 1;
      var x := list[n];
      var k, more := SlotOf(session, x), x.amount.value - Held(ns, session, x.participant, x.asset);
      RaisedIs(ns, session, list[..n]);
      NewInList(list);
      ListedIs(session, list[..n], k);
      HeldIs(ns, session, k);
      RaisedMore(cur, Listed(session, list[..n]), k, x.amount.value, more);
    }
  }

  lemma RaisedMore(cur: map<Slot, real>, listed: map<Slot, real>, k: Slot, amount: real, more: real)
    requires k !in listed && more == amount - Get(cur, k)
    ensures Sum(Delta(cur, cur + listed[k := amount])) == Sum(Delta(cur, cur + listed)) + more
  {
    var before, after := Delta(cur, cur + listed), Delta(cur, cur + listed[k := amount]);
    forall j ensures Get(after, j) == Get(before, j) + Get(map[k := more], j) {
      DeltaReached(cur, cur + listed, j);
      DeltaReached(cur, cur + listed[k := amount], j);
    }
    SumPlus(before, map[k := more], after);
    SumUpdate(map[], k, more);
  }

  /** The list leaves everything of other assets as it is, and raises slots of participants by the
      amount of the commit. */
  ghost predicate Raises(cfg: Config, ns: NodeState, p: State, u: Update)
    requires u.session in ns.sessions
  {
    && OnceEach(u.allocations) && AllInDigits(cfg, u.allocations)
    && (forall x :: x in u.allocations ==> x.amount.value >= 0.0)
    && (forall w, a :: RaisedAt(ns, p, u, w, a))
    && TotalRaised(ns, u.session, u.allocations) == p.transition.amount.value
  }

  ghost predicate RaisedAt(ns: NodeState, p: State, u: Update, w: Wallet, a: Asset)
    requires u.session in ns.sessions
  {
    var held, amount := Held(ns, u.session, w, a), AmountListed(u.allocations, w, a);
    && (IsListed(u.allocations, w, a) ==>
          amount >= held && (amount > held ==> a == p.asset && Member(ns.sessions[u.session].participants, w)))
    && (held != 0.0 && a != p.asset ==> IsListed(u.allocations, w, a) && amount == held)
  }

  lemma RaisedSlotIff(ns: NodeState, p: State, u: Update, k: Slot)
    requires u.session in ns.sessions && k.session == u.session
    ensures RaisedAt(ns, p, u, k.wallet, k.asset) <==>
      && (k in ListedBy(u) ==> DepositSlotOk(ns, p, u, k))
      && (Get(CurrentOf(ns, u.session), k) != 0.0 && k.asset != p.asset ==>
            k in ListedBy(u) && ListedBy(u)[k] == Get(CurrentOf(ns, u.session), k))
  {
    HeldIs(ns, u.session, k);
    ListedIs(u.session, u.allocations, k);
    MembersWeigh(ns.sessions[u.session].participants, k.wallet);
  }

  lemma DepositLists(cfg: Config, ns: NodeState, p: State, u: Update)
    requires u.session in ns.sessions && DepositOk(cfg, ns, p, u)
    ensures Raises(cfg, ns, p, u)
  {
    OnceIff(u.session, u.allocations);
    DigitsIff(cfg, u.allocations);
    RaisedIs(ns, u.session, u.allocations);
    forall w, a ensures RaisedAt(ns, p, u, w, a) {
      RaisedSlotIff(ns, p, u, Slot(u.session, w, a));
    }
  }

  lemma ListsDeposit(cfg: Config, ns: NodeState, p: State, u: Update)
    requires u.session in ns.sessions && Raises(cfg, ns, p, u)
    ensures DepositOk(cfg, ns, p, u)
  {
    OnceIff(u.session, u.allocations);
    DigitsIff(cfg, u.allocations);
    RaisedIs(ns, u.session, u.allocations);
    var cur, listed := CurrentOf(ns, u.session), ListedBy(u);
    forall k | k in listed ensures DepositSlotOk(ns, p, u, k) {
      ListedIs(u.session, u.allocations, k);
      assert RaisedAt(ns, p, u, k.wallet, k.asset);
      RaisedSlotIff(ns, p, u, k);
    }
    forall k | k in cur && cur[k] != 0.0 && k.asset != p.asset ensures k in listed && listed[k] == cur[k] {
      assert RaisedAt(ns, p, u, k.wallet, k.asset);
      RaisedSlotIff(ns, p, u, k);
    }
  }

  /** In every run a deposit is accepted exactly if its update is entitled and its list raises the
      session by the commit, which is the next state of its user and names the session. */
  lemma DepositAcceptedIff(cfg: Config, states: seq<NodeState>, ops: seq<Op>, n: nat, p: State, su: SignedUpdate,
                           c: Checks)
    requires Run(cfg, states, ops) && n < |ops| && ops[n] == SubmitDeposit(p, su, c)
    ensures Accepts(cfg, states[n], ops[n]) <==>
      && Entitled(cfg, states[n], su) && su.update.intent == Deposit && Raises(cfg, states[n], p, su.update)
      && p.transition.kind == Commit && p.transition.account == HashAccount(su.update.session)
      && Presentable(cfg, states[n], p, c.signatureValid)
      && c.channelOpen && (ChainOf(states[n].chains, Key(p.wallet, p.asset)) != [] ==> c.quiet)
  {
    RunInv(cfg, states, ops, n);
    AuthorizedIff(cfg, states, ops, n, su);
    CoSignableIff(cfg, states[n], p, c.signatureValid);
    if Entitled(cfg, states[n], su) {
      RaisesIff(cfg, states[n], p, su.update);
    }
  }

  lemma RaisesIff(cfg: Config, ns: NodeState, p: State, u: Update)
    requires u.session in ns.sessions
    ensures DepositOk(cfg, ns, p, u) <==> Raises(cfg, ns, p, u)
  {
    if DepositOk(cfg, ns, p, u) {
      DepositLists(cfg, ns, p, u);
    } else if Raises(cfg, ns, p, u) {
      ListsDeposit(cfg, ns, p, u);
    }
  }

  // ---------- Batches ----------

  /** The slot has been emptied: it is present, at zero. */
  predicate Emptied(ns: NodeState, k: Slot) {
    k in Allocated(ns.entries) && Allocated(ns.entries)[k] == 0.0
  }

  /** What is listed for slots of the session that have been emptied. */
  function TotalRefilled(ns: NodeState, session: Id, list: seq<Allocation>, a: Asset): real {
    if list == [] then 0.0
    else
      var x := list[|list| - 1];
      TotalRefilled(ns, session, list[..|list| - 1], a)
      + if x.asset == a && Emptied(ns, SlotOf(session, x)) then x.amount.value else 0.0
  }

  /** What is listed in a batch, less what its sessions hold, with a second count of what is listed
      for slots that have been emptied. */
  ghost function BatchTotal(ns: NodeState, updates: seq<SignedUpdate>, a: Asset): real {
    if updates == [] then 0.0
    else
      var u := updates[|updates| - 1].update;
      BatchTotal(ns, updates[..|updates| - 1], a)
      + (TotalListed(u.allocations, a) - SessionBalance(Allocated(ns.entries), u.session, a))
      + TotalRefilled(ns, u.session, u.allocations, a)
  }

  lemma {:induction false} RefilledIs(ns: NodeState, session: Id, list: seq<Allocation>, a: Asset)
    requires OnceEach(list)
    ensures Sum(OfAsset(Twice(CurrentOf(ns, session), Listed(session, list)), a)) == TotalRefilled(ns, session, list, a)
  {
    var cur := CurrentOf(ns, session);
    if list == [] {
      assert OfAsset(Twice(cur, map[]), a) == map[];
    } else {
      var n := |list| - 1;
      var x := list[n];
      var k := SlotOf(session, x);
      RefilledIs(ns, session, list[..n], a);
      NewInList(list);
      ListedIs(session, list[..n], k);
      assert k in cur && cur[k] == 0.0 <==> Emptied(ns, k);
      TwiceMore(cur, Listed(session, list[..n]), k, x.amount.value, a);
    }
  }

  lemma TwiceMore(cur: map<Slot, real>, listed: map<Slot, real>, k: Slot, amount: real, a: Asset)
    requires k !in listed
    ensures Sum(OfAsset(Twice(cur, listed[k := amount]), a))
         == Sum(OfAsset(Twice(cur, listed), a))
            + if k.asset == a && k in cur && cur[k] == 0.0 then amount else 0.0
  {
    var before, after := Twice(cur, listed), Twice(cur, listed[k := amount]);
    var more := if k in cur && cur[k] == 0.0 then amount else 0.0;
    assert Get(before, k) == 0.0;
    forall j ensures Get(after, j) == Get(before, j) + Get(map[k := more], j) {}
    SumOfAssetPlus(before, map[k := more], after, a);
    SumChange(map[], k, more, a);
    SumNoChange(a);
  }

  /** The sessions of the first updates do not include that of the last one. */
  lemma LastApart(updates: seq<SignedUpdate>)
    requires updates != [] && DistinctSessions(updates)
    ensures var n := |updates| - 1;
      && DistinctSessions(updates[..n]) && updates[n].update.session !in SessionsOf(updates[..n])
      && SessionsOf(updates) == SessionsOf(updates[..n]) + {updates[n].update.session}
  {
    var n := |updates| - 1;
    assert updates == updates[..n] + [updates[n]];
    forall i | 0 <= i < n ensures updates[..n][i].update.session != updates[n].update.session {
      assert updates[i].update.session != updates[n].update.session;
    }
  }

  lemma {:induction false} TallyIs(ns: NodeState, updates: seq<SignedUpdate>, a: Asset)
    requires DistinctSessions(updates) && forall su :: su in updates ==> OnceEach(su.update.allocations)
    ensures Tally(ns, updates, a) == BatchTotal(ns, updates, a)
  {
    if updates == [] {
      NoSession(ns);
      assert BatchChanges(ns, updates) == map[] && CountedTwice(ns, updates) == map[];
      SumNoChange(a);
    } else {
      var n := |updates| - 1;
      TallyIs(ns, updates[..n], a);
      LastApart(updates);
      assert updates[n] in updates;
      TallyMore(ns, updates, a);
    }
  }

  lemma TallyMore(ns: NodeState, updates: seq<SignedUpdate>, a: Asset)
    requires updates != [] && OnceEach(updates[|updates| - 1].update.allocations)
    requires var n := |updates| - 1;
      && updates[n].update.session !in SessionsOf(updates[..n])
      && SessionsOf(updates) == SessionsOf(updates[..n]) + {updates[n].update.session}
    ensures var u := updates[|updates| - 1].update;
      Tally(ns, updates, a) == Tally(ns, updates[..|updates| - 1], a)
        + (TotalListed(u.allocations, a) - SessionBalance(Allocated(ns.entries), u.session, a))
        + TotalRefilled(ns, u.session, u.allocations, a)
  {
    var n := |updates| - 1;
    var u := updates[n].update;
    ChangesMore(ns, updates, a);
    TwicePlus(ns, updates, a);
    TotalIs(u.session, u.allocations, a);
    RefilledIs(ns, u.session, u.allocations, a);
  }

  lemma ChangesMore(ns: NodeState, updates: seq<SignedUpdate>, a: Asset)
    requires updates != []
    requires var n := |updates| - 1;
      && updates[n].update.session !in SessionsOf(updates[..n])
      && SessionsOf(updates) == SessionsOf(updates[..n]) + {updates[n].update.session}
    ensures var n := |updates| - 1;
      Sum(OfAsset(BatchChanges(ns, updates), a)) == Sum(OfAsset(BatchChanges(ns, updates[..n]), a))
        + Sum(OfAsset(ListedBy(updates[n].update), a))
        - SessionBalance(Allocated(ns.entries), updates[n].update.session, a)
  {
    var n := |updates| - 1;
    var u, sessions := updates[n].update, SessionsOf(updates[..n]);
    BatchInSessions(updates[..n]);
    ListedInSession(u);
    forall k ensures Get(ListedByAll(updates), k) == Get(ListedByAll(updates[..n]), k) + Get(ListedBy(u), k) {}
    SumOfAssetPlus(ListedByAll(updates[..n]), ListedBy(u), ListedByAll(updates), a);
    var all, some, own := CurrentOfAll(ns, SessionsOf(updates)), CurrentOfAll(ns, sessions), CurrentOf(ns, u.session);
    forall k ensures Get(all, k) == Get(some, k) + Get(own, k) {}
    SumOfAssetPlus(some, own, all, a);
    DeltaSum(all, ListedByAll(updates), a);
    DeltaSum(some, ListedByAll(updates[..n]), a);
  }

  lemma TwicePlus(ns: NodeState, updates: seq<SignedUpdate>, a: Asset)
    requires updates != []
    requires var n := |updates| - 1;
      && updates[n].update.session !in SessionsOf(updates[..n])
      && SessionsOf(updates) == SessionsOf(updates[..n]) + {updates[n].update.session}
    ensures var n := |updates| - 1; var u := updates[n].update;
      Sum(OfAsset(CountedTwice(ns, updates), a)) == Sum(OfAsset(CountedTwice(ns, updates[..n]), a))
        + Sum(OfAsset(Twice(CurrentOf(ns, u.session), ListedBy(u)), a))
  {
    var n := |updates| - 1;
    var u := updates[n].update;
    BatchInSessions(updates[..n]);
    ListedInSession(u);
    var some, own := CurrentOfAll(ns, SessionsOf(updates[..n])), CurrentOf(ns, u.session);
    assert CurrentOfAll(ns, SessionsOf(updates)) == some + own;
    TwiceApart(some, own, ListedByAll(updates[..n]), ListedBy(u), a);
  }

  lemma TwiceApart(cur: map<Slot, real>, own: map<Slot, real>, listed: map<Slot, real>, more: map<Slot, real>, a: Asset)
    requires (cur.Keys + listed.Keys) !! (own.Keys + more.Keys)
    ensures Sum(OfAsset(Twice(cur + own, listed + more), a))
         == Sum(OfAsset(Twice(cur, listed), a)) + Sum(OfAsset(Twice(own, more), a))
  {
    var all := Twice(cur + own, listed + more);
    forall k ensures Get(all, k) == Get(Twice(cur, listed), k) + Get(Twice(own, more), k) {
      assert !(k in cur || k in listed) || !(k in own || k in more);
    }
    SumOfAssetPlus(Twice(cur, listed), Twice(own, more), all, a);
  }

  ghost predicate MemberOk(cfg: Config, ns: NodeState, su: SignedUpdate) {
    && Entitled(cfg, ns, su) && su.update.intent == Rebalance
    && Proper(ns.sessions[su.update.session].participants, su.update.allocations)
  }

  lemma MemberIff(cfg: Config, ns: NodeState, su: SignedUpdate)
    requires Authorized(cfg, ns, su) <==> Entitled(cfg, ns, su)
    ensures RebalanceUpdateOk(cfg, ns, su) <==> MemberOk(cfg, ns, su)
  {
    if su.update.session in ns.sessions {
      ProperIff(ns, su.update);
    }
  }

  /** At least two updates, of different sessions, each of them for a rebalance, with a zero total of
      every asset. */
  ghost predicate Batch(cfg: Config, ns: NodeState, updates: seq<SignedUpdate>) {
    && 2 <= |updates| <= cfg.maxSignedUpdates
    && (forall i, j :: 0 <= i < j < |updates| ==> updates[i].update.session != updates[j].update.session)
    && (forall su :: su in updates ==> MemberOk(cfg, ns, su))
    && (forall a :: BatchTotal(ns, updates, a) == 0.0)
  }

  lemma BatchLists(cfg: Config, ns: NodeState, updates: seq<SignedUpdate>)
    requires forall su :: su in updates && RebalanceUpdateOk(cfg, ns, su) ==> MemberOk(cfg, ns, su)
    requires AcceptsRebalance(cfg, ns, updates)
    ensures Batch(cfg, ns, updates)
  {
    forall su | su in updates ensures MemberOk(cfg, ns, su) {
      assert RebalanceUpdateOk(cfg, ns, su);
    }
    forall a ensures BatchTotal(ns, updates, a) == 0.0 {
      TallyIs(ns, updates, a);
      assert Tally(ns, updates, a) == 0.0;
    }
  }

  lemma ListsBatch(cfg: Config, ns: NodeState, updates: seq<SignedUpdate>)
    requires forall su :: su in updates && MemberOk(cfg, ns, su) ==> RebalanceUpdateOk(cfg, ns, su)
    requires Batch(cfg, ns, updates)
    ensures AcceptsRebalance(cfg, ns, updates)
  {
    forall su | su in updates ensures RebalanceUpdateOk(cfg, ns, su) {
      assert MemberOk(cfg, ns, su);
    }
    forall a ensures Tally(ns, updates, a) == 0.0 {
      TallyIs(ns, updates, a);
      assert BatchTotal(ns, updates, a) == 0.0;
    }
  }

  lemma BatchIff(cfg: Config, ns: NodeState, updates: seq<SignedUpdate>)
    requires forall su :: su in updates ==> (RebalanceUpdateOk(cfg, ns, su) <==> MemberOk(cfg, ns, su))
    ensures AcceptsRebalance(cfg, ns, updates) <==> Batch(cfg, ns, updates)
  {
    if AcceptsRebalance(cfg, ns, updates) {
      BatchLists(cfg, ns, updates);
    } else if Batch(cfg, ns, updates) {
      ListsBatch(cfg, ns, updates);
    }
  }

  /** In every run a batch is accepted exactly if its updates are entitled, of participants' allocations,
      and of sessions that differ, and if its total, with the second count, is zero. */
  lemma BatchAcceptedIff(cfg: Config, states: seq<NodeState>, ops: seq<Op>, n: nat, updates: seq<SignedUpdate>)
    requires Run(cfg, states, ops) && n < |ops| && ops[n] == RebalanceSessions(updates)
    ensures Accepts(cfg, states[n], ops[n]) <==> Batch(cfg, states[n], updates)
  {
    forall su | su in updates ensures RebalanceUpdateOk(cfg, states[n], su) <==> MemberOk(cfg, states[n], su) {
      AuthorizedIff(cfg, states, ops, n, su);
      MemberIff(cfg, states[n], su);
    }
    BatchIff(cfg, states[n], updates);
  }

  // ---------- What the slots hold afterwards ----------

  /** What the signed list leaves in a slot of the session. */
  ghost function LeftBy(ns: NodeState, u: Update, w: Wallet, a: Asset): real {
    if u.intent == Close then 0.0
    else if u.intent == Deposit && !IsListed(u.allocations, w, a) then Held(ns, u.session, w, a)
    else AmountListed(u.allocations, w, a)
  }

  /** In every run, once a request is carried out, each of its sessions holds what is listed for it,
      in every slot, and no other session's slots have changed. */
  lemma ListsAreHeld(cfg: Config, states: seq<NodeState>, ops: seq<Op>, n: nat, session: Id, w: Wallet, a: Asset)
    requires Run(cfg, states, ops) && n < |ops| && Accepts(cfg, states[n], ops[n])
    ensures forall su :: su in UpdatesOf(ops[n]) && su.update.session == session ==>
      Held(states[n + 1], session, w, a) == LeftBy(states[n], su.update, w, a)
    ensures (forall su :: su in UpdatesOf(ops[n]) ==> su.update.session != session) ==>
      Held(states[n + 1], session, w, a) == Held(states[n], session, w, a)
  {
    var ns, op, k := states[n], ops[n], Slot(session, w, a);
    StepApplied(cfg, ns, op, states[n + 1]);
    OpSettles(cfg, ns, op, states[n + 1]);
    forall su | su in UpdatesOf(op) && su.update.session == session
      ensures Get(Goal(ns, op), k) == LeftBy(ns, su.update, w, a) && session in Touched(op)
    {
      GoalIs(cfg, ns, op, su, w, a);
    }
    TouchedBy(op, session);
  }

  lemma TouchedBy(op: Op, session: Id)
    ensures session in Touched(op) <==> exists su :: su in UpdatesOf(op) && su.update.session == session
  {
    if op.SubmitUpdate? || op.SubmitDeposit? {
      assert op.su in UpdatesOf(op);
    }
  }

  lemma GoalIs(cfg: Config, ns: NodeState, op: Op, su: SignedUpdate, w: Wallet, a: Asset)
    requires Accepts(cfg, ns, op) && su in UpdatesOf(op)
    ensures var u := su.update;
      && Get(Goal(ns, op), Slot(u.session, w, a)) == LeftBy(ns, u, w, a) && u.session in Touched(op)
  {
    var u := su.update;
    var k := Slot(u.session, w, a);
    ListedIs(u.session, u.allocations, k);
    HeldIs(ns, u.session, k);
    GoalIntent(cfg, ns, op, su);
    if op.RebalanceSessions? {
      BatchListed(op.updates, su, k);
    }
  }

  lemma GoalIntent(cfg: Config, ns: NodeState, op: Op, su: SignedUpdate)
    requires Accepts(cfg, ns, op) && su in UpdatesOf(op)
    ensures match op
            case SubmitUpdate(_) => su.update.intent != Deposit
            case SubmitDeposit(_, _, _) => su.update.intent == Deposit
            case _ => op.RebalanceSessions? && su.update.intent == Rebalance && DistinctSessions(op.updates)
  {
    if op.RebalanceSessions? {
      assert RebalanceUpdateOk(cfg, ns, su);
    }
  }

  /** In a batch each session is listed by its own update only. */
  lemma {:induction false} BatchListed(updates: seq<SignedUpdate>, su: SignedUpdate, k: Slot)
    requires DistinctSessions(updates) && su in updates && k.session == su.update.session
    ensures Get(ListedByAll(updates), k) == Get(ListedBy(su.update), k)
  {
    var n := |updates| - 1;
    LastApart(updates);
    ListedInSession(updates[n].update);
    BatchInSessions(updates[..n]);
    if su == updates[n] {
      assert k !in ListedByAll(updates[..n]);
    } else {
      assert su in updates[..n];
      BatchListed(updates[..n], su, k);
      assert k.session in SessionsOf(updates[..n]);
    }
  }
}
