/** What the states of a chain carry: which transition, naming which account, under which
    transaction identifier, and with which version. */
module Transitions {
  import opened Options
  import opened Channels
  import opened Advancer
  import opened Chains

  // ---------- Transitions that a user signs ----------

  /** The account of a transition by its kind: a channel of the state itself, or, of a transfer and
      a commit, whatever account the user names. */
  predicate OwnAccount(s: State) {
    match s.transition.kind
    case Acknowledgement => s.transition.account == HashAccount(ZeroHash)
    case HomeDeposit => s.homeChannel.Some? && s.transition.account == HashAccount(s.homeChannel.value)
    case HomeWithdrawal => s.homeChannel.Some? && s.transition.account == HashAccount(s.homeChannel.value)
    case Finalize => s.homeChannel.Some? && s.transition.account == HashAccount(s.homeChannel.value)
    case MutualLock => s.escrowChannel.Some? && s.transition.account == HashAccount(s.escrowChannel.value)
    case EscrowLock => s.escrowChannel.Some? && s.transition.account == HashAccount(s.escrowChannel.value)
    case EscrowDeposit => s.escrowChannel.Some? && s.transition.account == HashAccount(s.escrowChannel.value)
    case EscrowWithdraw => s.escrowChannel.Some? && s.transition.account == HashAccount(s.escrowChannel.value)
    case TransferSend => true
    case Commit => true
    case _ => false
  }

  /** The transaction identifier is made from the account and the identifier of the state. */
  predicate OwnTxId(s: State) {
    s.transition.txId ==
    if s.transition.kind == Acknowledgement then ZeroHash else TransactionId(s.transition.account, s.id)
  }

  predicate OwnAmount(s: State) {
    var amount := s.transition.amount.value;
    if s.transition.kind == Acknowledgement then amount == 0.0
    else if s.transition.kind == Finalize then amount >= 0.0
    else amount > 0.0
  }

  lemma BuiltCarries(b: State, r: Request)
    requires Apply(b, r).Some? && !r.ReceiveTransfer? && !r.ReleaseFrom?
    ensures OwnAccount(Apply(b, r).value) && OwnTxId(Apply(b, r).value)
  {}

  lemma SameCarries(a: State, b: State)
    requires SameState(a, b) && OwnAccount(a) && OwnTxId(a)
    ensures OwnAccount(b) && OwnTxId(b)
  {}

  lemma AdvancesCarries(cur: State, p: State, decimals: Option<nat>)
    requires Advances(cur, p, decimals)
    ensures OwnAccount(p) && OwnTxId(p)
  {
    var r :| Builds(cur, p, r);
    BuiltCarries(Base(cur, p), r);
    SameCarries(Apply(Base(cur, p), r).value, p);
  }

  lemma AdvancesAmount(cur: State, p: State, decimals: Option<nat>)
    requires Advances(cur, p, decimals)
    ensures AmountRule(p.transition) && (p.transition.kind == Acknowledgement ==> !cur.userSigned)
  {
    CheckedIsAdvancing(cur, p, decimals);
  }

  /** How the state at i came about: by its user, or issued by the node alone. */
  lemma StepOf(k: Key, chain: seq<State>, i: nat, decimals: Option<nat>)
    requires ValidChain(k, chain, decimals) && i < |chain|
    ensures if chain[i].userSigned then chain[i].nodeSigned && Advances(Last(k, chain[..i]), chain[i], decimals)
            else NodeStep(k, chain[..i], chain[i])
  {
    PrefixValid(k, chain, i + 1, decimals);
    assert chain[..i + 1][..i] == chain[..i];
    if NodeStep(k, chain[..i], chain[i]) {
      NodeStepKind(k, chain[..i], chain[i]);
    }
  }

  /** Every state of a chain that its user signed is signed by the node too, and carries a
      transition of a user's kind with the account of that kind, the transaction identifier made
      from it, and an amount in the range of that kind. */
  lemma SignedCarries(k: Key, chain: seq<State>, i: nat, decimals: Option<nat>)
    requires ValidChain(k, chain, decimals) && i < |chain| && chain[i].userSigned
    ensures chain[i].nodeSigned && OwnAccount(chain[i]) && OwnTxId(chain[i]) && OwnAmount(chain[i])
    ensures chain[i].transition.kind == Acknowledgement ==> i == 0 || !chain[i - 1].userSigned
  {
    StepOf(k, chain, i, decimals);
    AdvancesCarries(Last(k, chain[..i]), chain[i], decimals);
    AdvancesAmount(Last(k, chain[..i]), chain[i], decimals);
  }

  /** Every other state is a receive or a release of a positive amount, and is signed by the node
      exactly if there is a channel. A release carries the identifier made from its account. */
  lemma IssuedCarries(k: Key, chain: seq<State>, i: nat, decimals: Option<nat>)
    requires ValidChain(k, chain, decimals) && i < |chain| && !chain[i].userSigned
    ensures var s := chain[i];
      && (s.transition.kind == TransferReceive || s.transition.kind == Release)
      && s.transition.amount.value > 0.0 && (s.nodeSigned <==> s.homeChannel.Some?)
      && (s.transition.kind == Release ==> s.transition.txId == TransactionId(s.transition.account, s.id))
  {
    StepOf(k, chain, i, decimals);
    var r: Request :| IsIncoming(r) && chain[i] == Issued(Last(k, chain[..i]), r);
  }

  // ---------- Versions ----------

  /** Versions count up by one from version 1 of epoch 0 on; after a finalization the next epoch
      starts at version 0. */
  lemma VersionsCount(k: Key, chain: seq<State>, i: nat, decimals: Option<nat>)
    requires ValidChain(k, chain, decimals) && i < |chain|
    ensures var s := chain[i];
      if i == 0 then s.epoch == 0 && s.version == 1
      else if chain[i - 1].transition.kind == Finalize then s.epoch == chain[i - 1].epoch + 1 && s.version == 0
      else s.epoch == chain[i - 1].epoch && s.version == chain[i - 1].version + 1
  {
    var cur, r := StepAt(k, chain, i, decimals);
    MovesKeeps(cur, chain[i], r);
    if i > 0 {
      LastOfPrefix(k, chain, i);
    }
  }

  // ---------- Balances ----------

  /** What a transition adds to the balance of the user in the home ledger. */
  function Credit(s: State, before: real): real {
    var amount := s.transition.amount.value;
    match s.transition.kind
    case HomeDeposit => amount
    case EscrowDeposit => amount
    case TransferReceive => amount
    case Release => amount
    case HomeWithdrawal => -amount
    case TransferSend => -amount
    case Commit => -amount
    case EscrowWithdraw => -amount
    case Finalize => -before
    case _ => 0.0
  }

  function BalanceBefore(chain: seq<State>, i: nat): real
    requires i <= |chain|
  {
    if i == 0 then 0.0 else chain[i - 1].home.userBalance
  }

  /** Along a chain the user's balance moves by the amount of each transition, in the direction of
      its kind; a finalization is of the whole balance. */
  lemma BalanceMoves(k: Key, chain: seq<State>, i: nat, decimals: Option<nat>)
    requires ValidChain(k, chain, decimals) && i < |chain|
    ensures var before := BalanceBefore(chain, i);
      && chain[i].home.userBalance == before + Credit(chain[i], before)
      && (chain[i].transition.kind == Finalize ==> chain[i].transition.amount.value == before)
  {
    var cur, r := StepAt(k, chain, i, decimals);
    StepCredits(cur, chain[i], r);
    BeforeIs(k, chain, i);
  }

  lemma BeforeIs(k: Key, chain: seq<State>, i: nat)
    requires i <= |chain|
    ensures Last(k, chain[..i]).home.userBalance == BalanceBefore(chain, i)
  {}

  lemma StepCredits(cur: State, s: State, r: Request)
    requires Sound(cur) && Moves(cur, s, r)
    ensures var before := cur.home.userBalance;
      && s.home.userBalance == before + Credit(s, before)
      && (s.transition.kind == Finalize ==> s.transition.amount.value == before)
  {
    var e := Apply(Base(cur, s), r).value;
    CreditOf(Base(cur, s), r);
    BaseBalance(cur, s);
    SameCredit(e, s, cur.home.userBalance);
  }

  lemma SameCredit(a: State, b: State, before: real)
    requires SameState(a, b)
    ensures a.home == b.home && Credit(a, before) == Credit(b, before)
    ensures a.transition.kind == b.transition.kind && a.transition.amount.value == b.transition.amount.value
  {}

  lemma BaseBalance(cur: State, p: State)
    requires Sound(cur)
    ensures Base(cur, p).home.userBalance == cur.home.userBalance
  {}

  lemma CreditOf(b: State, r: Request)
    requires Apply(b, r).Some?
    ensures var s := Apply(b, r).value;
      && s.home.userBalance == b.home.userBalance + Credit(s, b.home.userBalance)
      && (s.transition.kind == Finalize ==> s.transition.amount.value == b.home.userBalance)
  {}
}
