/** The ledgers as the contract sees them: integers in the token's smallest unit. */
module Packing {
  import opened Options
  import opened Decimals
  import opened Channels
  import opened Advancer
  import opened Chains

  /** The number of decimals of each asset at the node, and of each token on its chain. */
  datatype AssetStore = AssetStore(assets: map<Asset, nat>, tokens: map<(ChainId, Token), nat>) {
    function AssetDecimals(asset: Asset): Option<nat> {
      if asset in assets then Some(assets[asset]) else None
    }

    function TokenDecimals(chain: ChainId, token: Token): Option<nat> {
      if (chain, token) in tokens then Some(tokens[(chain, token)]) else None
    }
  }

  datatype ContractLedger = ContractLedger(
    chain: ChainId,
    token: Token,
    decimals: nat,
    userAllocation: int,
    userNetFlow: int,
    nodeAllocation: int,
    nodeNetFlow: int)

  const NO_CONTRACT_LEDGER := ContractLedger(0, "", 0, 0, 0, 0, 0)

  function ScaleLedger(l: Ledger, store: AssetStore): Option<ContractLedger> {
    var decimals := store.TokenDecimals(l.chain, l.token);
    if decimals.None? then None
    else
      var d := decimals.value;
      var userBalance := ToBigInt(l.userBalance, d);
      var userNetFlow := ToBigInt(l.userNetFlow, d);
      var nodeBalance := ToBigInt(l.nodeBalance, d);
      var nodeNetFlow := ToBigInt(l.nodeNetFlow, d);
      if userBalance.None? || userNetFlow.None? || nodeBalance.None? || nodeNetFlow.None? then None
      else
        Some(ContractLedger(l.chain, l.token, d, userBalance.value, userNetFlow.value, nodeBalance.value,
          nodeNetFlow.value))
  }

  /** The home and the escrow ledger that go into the signed message; None if they cannot be packed. */
  function PackLedgers(s: State, store: AssetStore): Option<(ContractLedger, ContractLedger)> {
    if s.homeChannel.None? then None
    else
      var home := ScaleLedger(s.home, store);
      var escrow := if s.escrow.None? then Some(NO_CONTRACT_LEDGER) else ScaleLedger(s.escrow.value, store);
      if home.None? || escrow.None? then None else Some((home.value, escrow.value))
  }

  predicate ContractBalanced(c: ContractLedger) {
    && c.userAllocation >= 0 && c.nodeAllocation >= 0
    && c.userAllocation + c.nodeAllocation == c.userNetFlow + c.nodeNetFlow
  }

  lemma ScaledSum(x: real, y: real, d: nat)
    ensures Scaled(x, d) + Scaled(y, d) == Scaled(x + y, d)
  {
    Distribute(x, y, Pow10(d) as real);
  }

  lemma ScaledNonNegative(x: real, d: nat)
    requires x >= 0.0
    ensures Scaled(x, d) >= 0.0
  {}

  lemma ScaledBalanced(l: Ledger, store: AssetStore)
    requires Balanced(l) && l.userBalance >= 0.0 && l.nodeBalance >= 0.0 && ScaleLedger(l, store).Some?
    ensures ContractBalanced(ScaleLedger(l, store).value)
  {
    var c := ScaleLedger(l, store).value;
    var d := c.decimals;
    ScaledSum(l.userBalance, l.nodeBalance, d);
    ScaledSum(l.userNetFlow, l.nodeNetFlow, d);
    ScaledNonNegative(l.userBalance, d);
    ScaledNonNegative(l.nodeBalance, d);
  }

  /** Whatever sound state is packed, the contract's ledgers satisfy the ledger equation as well. */
  lemma PackedBalanced(s: State, store: AssetStore)
    requires Sound(s) && PackLedgers(s, store).Some?
    ensures ContractBalanced(PackLedgers(s, store).value.0) && ContractBalanced(PackLedgers(s, store).value.1)
  {
    ScaledBalanced(s.home, store);
    if s.escrow.Some? {
      assert s.escrow.value.userBalance >= 0.0 && s.escrow.value.nodeBalance >= 0.0 && Balanced(s.escrow.value);
      ScaledBalanced(s.escrow.value, store);
    }
  }

  /** The contract's ledger is this one, in the smallest unit of its token. */
  predicate PackedAs(l: Ledger, c: ContractLedger, store: AssetStore) {
    var unit := Pow10(c.decimals) as real;
    && c.chain == l.chain && c.token == l.token && store.TokenDecimals(l.chain, l.token) == Some(c.decimals)
    && c.userAllocation as real == l.userBalance * unit && c.userNetFlow as real == l.userNetFlow * unit
    && c.nodeAllocation as real == l.nodeBalance * unit && c.nodeNetFlow as real == l.nodeNetFlow * unit
  }

  lemma ScaledFields(l: Ledger, store: AssetStore)
    requires ScaleLedger(l, store).Some?
    ensures PackedAs(l, ScaleLedger(l, store).value, store)
  {}

  /** Every field of the packed ledgers is that of the state's ledger, scaled; without an escrow
      ledger the second one is all zero. */
  lemma PackedFields(s: State, store: AssetStore)
    requires PackLedgers(s, store).Some?
    ensures var (home, escrow) := PackLedgers(s, store).value;
      && PackedAs(s.home, home, store)
      && match s.escrow
         case Some(l) => PackedAs(l, escrow, store)
         case None => escrow == ContractLedger(0, "", 0, 0, 0, 0, 0)
  {
    ScaledFields(s.home, store);
    if s.escrow.Some? {
      ScaledFields(s.escrow.value, store);
    }
  }

  lemma ScaleInjective(x: real, y: real, unit: real)
    requires unit >= 1.0 && x * unit == y * unit
    ensures x == y
  {
    assert (x - y) * unit == 0.0;
  }

  lemma PackedOnce(l: Ledger, m: Ledger, c: ContractLedger, store: AssetStore)
    requires PackedAs(l, c, store) && PackedAs(m, c, store)
    ensures l == m
  {
    var unit := Pow10(c.decimals) as real;
    ScaleInjective(l.userBalance, m.userBalance, unit);
    ScaleInjective(l.userNetFlow, m.userNetFlow, unit);
    ScaleInjective(l.nodeBalance, m.nodeBalance, unit);
    ScaleInjective(l.nodeNetFlow, m.nodeNetFlow, unit);
  }

  /** What is signed determines the ledgers: sound states that are packed to the same contract
      ledgers have the same home ledger and the same escrow ledger, or both none. */
  lemma PackedInjective(s: State, t: State, store: AssetStore)
    requires Sound(s) && Sound(t) && PackLedgers(s, store).Some?
    requires PackLedgers(s, store) == PackLedgers(t, store)
    ensures s.home == t.home && s.escrow == t.escrow
  {
    PackedFields(s, store);
    PackedFields(t, store);
    var (home, escrow) := PackLedgers(s, store).value;
    PackedOnce(s.home, t.home, home, store);
    if s.escrow.Some? && t.escrow.Some? {
      PackedOnce(s.escrow.value, t.escrow.value, escrow, store);
    }
  }

  // ---------- Precision ----------

  predicate LedgerFits(l: Ledger, d: nat) {
    Fits(l.userBalance, d) && Fits(l.userNetFlow, d) && Fits(l.nodeBalance, d) && Fits(l.nodeNetFlow, d)
  }

  predicate StateFits(s: State, d: nat) {
    LedgerFits(s.home, d) && (s.escrow.Some? ==> LedgerFits(s.escrow.value, d))
  }

  /** A ledger in whole units of a token that the node knows. */
  predicate Whole(l: Ledger, store: AssetStore) {
    var decimals := store.TokenDecimals(l.chain, l.token);
    decimals.Some? && LedgerFits(l, decimals.value)
  }

  /** A state packs exactly if it has a home channel and all of its ledgers are in whole units. */
  lemma PacksIff(s: State, store: AssetStore)
    ensures PackLedgers(s, store).Some? <==>
      s.homeChannel.Some? && Whole(s.home, store) && (s.escrow.Some? ==> Whole(s.escrow.value, store))
  {
    ScalesIff(s.home, store);
    if s.escrow.Some? {
      ScalesIff(s.escrow.value, store);
    }
  }

  lemma ScalesIff(l: Ledger, store: AssetStore)
    ensures ScaleLedger(l, store).Some? <==> Whole(l, store)
  {}

  /** A new ledger field is the old one, the amount, its negation, zero, or a sum of them. */
  lemma MoveFits(x: real, amount: real, d: nat)
    requires Fits(x, d) && Fits(amount, d)
    ensures Fits(x + amount, d) && Fits(x - amount, d) && Fits(0.0, d) && Fits(-amount, d) && Fits(0.0 - amount, d)
  {
    FitsZero(d);
    FitsCloses(x, amount, d);
    FitsCloses(0.0, amount, d);
    assert -amount == 0.0 - amount;
  }

  lemma LedgerMoves(l: Ledger, amount: real, d: nat)
    requires LedgerFits(l, d) && Fits(amount, d)
    ensures LedgerFits(Shift(l, amount), d) && LedgerFits(Shift(l, -amount), d)
    ensures LedgerFits(Fund(l, amount), d) && LedgerFits(Fund(l, -amount), d)
    ensures LedgerFits(l.(nodeBalance := 0.0), d)
    ensures LedgerFits(l.(nodeBalance := l.nodeBalance + amount, nodeNetFlow := l.nodeNetFlow + amount), d)
    ensures LedgerFits(l.(userBalance := l.userBalance + amount, nodeBalance := 0.0), d)
    ensures LedgerFits(l.(userNetFlow := l.userNetFlow - amount, nodeBalance := l.nodeBalance - amount), d)
    ensures Fits(0.0, d)
  {
    MoveFits(l.userBalance, amount, d);
    MoveFits(l.userNetFlow, amount, d);
    MoveFits(l.nodeBalance, amount, d);
    MoveFits(l.nodeNetFlow, amount, d);
    assert l.userBalance + -amount == l.userBalance - amount;
    assert l.nodeNetFlow + -amount == l.nodeNetFlow - amount;
    assert l.userNetFlow + -amount == l.userNetFlow - amount;
  }

  lemma ApplyFits(b: State, r: Request, d: nat)
    requires StateFits(b, d) && Apply(b, r).Some? && Fits(Apply(b, r).value.transition.amount.value, d)
    ensures StateFits(Apply(b, r).value, d)
  {
    var amount := Apply(b, r).value.transition.amount.value;
    LedgerMoves(b.home, amount, d);
    if b.escrow.Some? {
      LedgerMoves(b.escrow.value, amount, d);
    }
  }

  lemma StepFits(cur: State, s: State, r: Request, d: nat)
    requires Moves(cur, s, r) && StateFits(cur, d) && Fits(s.transition.amount.value, d)
    ensures StateFits(s, d)
  {
    BaseFits(cur, s, d);
    ApplyFits(Base(cur, s), r, d);
    SameFits(Apply(Base(cur, s), r).value, s, d);
  }

  lemma BaseFits(cur: State, s: State, d: nat)
    requires StateFits(cur, d)
    ensures StateFits(Base(cur, s), d)
  {
    FitsZero(d);
  }

  lemma SameFits(s: State, t: State, d: nat)
    requires SameState(s, t)
    ensures s.transition.amount.value == t.transition.amount.value && (StateFits(s, d) ==> StateFits(t, d))
  {}

  ghost predicate AmountsFit(chain: seq<State>, d: nat) {
    forall j :: 0 <= j < |chain| ==> Fits(chain[j].transition.amount.value, d)
  }

  lemma ChainStepFits(k: Key, chain: seq<State>, d: nat, i: nat, decimals: Option<nat>)
    requires ValidChain(k, chain, decimals) && i < |chain| && AmountsFit(chain, d)
    ensures StateFits(Last(k, chain[..i]), d) ==> StateFits(chain[i], d)
  {
    var cur, r := StepAt(k, chain, i, decimals);
    if StateFits(cur, d) {
      StepFits(cur, chain[i], r, d);
    }
  }

  lemma {:induction false} LinksFit(k: Key, chain: seq<State>, d: nat, i: nat)
    requires forall j :: 0 <= j < |chain| ==> (StateFits(Last(k, chain[..j]), d) ==> StateFits(chain[j], d))
    requires i < |chain|
    ensures StateFits(chain[i], d)
    decreases i
  {
    if i == 0 {
      FitsZero(d);
    } else {
      LinksFit(k, chain, d, i - 1);
      LastOfPrefix(k, chain, i);
    }
  }

  /** If every amount of a chain fits the asset's decimals, so does every field of its ledgers. */
  lemma ChainFits(k: Key, chain: seq<State>, d: nat, i: nat, decimals: Option<nat>)
    requires ValidChain(k, chain, decimals) && i < |chain| && AmountsFit(chain, d)
    ensures StateFits(chain[i], d)
  {
    forall j | 0 <= j < |chain| ensures StateFits(Last(k, chain[..j]), d) ==> StateFits(chain[j], d) {
      ChainStepFits(k, chain, d, j, decimals);
    }
    LinksFit(k, chain, d, i);
  }

  lemma LedgerScales(l: Ledger, d: nat, store: AssetStore)
    requires LedgerFits(l, d) && FineToken(l, d, store)
    ensures ScaleLedger(l, store).Some?
  {
    var e := store.TokenDecimals(l.chain, l.token).value;
    FitsFiner(l.userBalance, d, e);
    FitsFiner(l.userNetFlow, d, e);
    FitsFiner(l.nodeBalance, d, e);
    FitsFiner(l.nodeNetFlow, d, e);
  }

  /** A ledger is on a token that the node knows, at least as fine as its asset. */
  predicate FineToken(l: Ledger, d: nat, store: AssetStore) {
    var decimals := store.TokenDecimals(l.chain, l.token);
    decimals.Some? && d <= decimals.value
  }

  /** With its own tokens at least as fine as the asset, a state of such a chain never fails to pack. */
  lemma ChainPacks(k: Key, chain: seq<State>, d: nat, i: nat, decimals: Option<nat>, store: AssetStore)
    requires ValidChain(k, chain, decimals) && i < |chain| && chain[i].homeChannel.Some?
    requires AmountsFit(chain, d)
    requires FineToken(chain[i].home, d, store)
    requires chain[i].escrow.Some? ==> FineToken(chain[i].escrow.value, d, store)
    ensures PackLedgers(chain[i], store).Some?
  {
    ChainFits(k, chain, d, i, decimals);
    LedgerScales(chain[i].home, d, store);
    if chain[i].escrow.Some? {
      LedgerScales(chain[i].escrow.value, d, store);
    }
  }
}
