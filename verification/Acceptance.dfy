/** Which states validation accepts after the current one, field by field. */
module Acceptance {
  import opened Options
  import opened Channels
  import opened Advancer
  import opened Chains
  import opened Transitions

  /** The next version of the same epoch, or, after a finalization, version 0 of the next one. */
  predicate NextInLine(cur: State, p: State) {
    && p.wallet == cur.wallet && p.asset == cur.asset
    && p.id == StateId(cur.wallet, cur.asset, p.epoch, p.version)
    && (if cur.transition.kind == Finalize then p.epoch == cur.epoch + 1 && p.version == 0
        else p.epoch == cur.epoch && p.version == cur.version + 1)
  }

  /** There is a home channel, with a chain and a token: those of the current state, if that has a
      channel and has not given it up. */
  predicate ChannelKept(cur: State, p: State) {
    && p.homeChannel.Some? && p.home.token != "" && p.home.chain != 0
    && (cur.homeChannel.Some? && cur.transition.kind != Finalize ==>
          p.homeChannel == cur.homeChannel && p.home.token == cur.home.token && p.home.chain == cur.home.chain)
  }

  /** What the user puts into the channel on chain by a transition, or takes out of it. */
  function FromChain(t: Transition): real {
    match t.kind
    case HomeDeposit => t.amount.value
    case HomeWithdrawal => -t.amount.value
    case Finalize => -t.amount.value
    case _ => 0.0
  }

  /** What the node puts into the channel by a transition, or takes out of it. */
  function FromNode(t: Transition): real {
    match t.kind
    case MutualLock => t.amount.value
    case TransferSend => -t.amount.value
    case Commit => -t.amount.value
    case EscrowWithdraw => -t.amount.value
    case _ => 0.0
  }

  /** The home ledger moves from this one by the amount of the transition; it holds funds of the node
      under a lock of theirs only. */
  predicate HomeMoves(from: Ledger, s: State) {
    var t := s.transition;
    && s.home.userBalance == from.userBalance + Credit(s, from.userBalance)
    && s.home.userNetFlow == from.userNetFlow + FromChain(t)
    && s.home.nodeNetFlow == from.nodeNetFlow + FromNode(t)
    && s.home.nodeBalance == if t.kind == MutualLock then t.amount.value else 0.0
  }

  /** Ledgers start over after a finalization. */
  function Start(cur: State): Ledger {
    if cur.transition.kind == Finalize then EMPTY_LEDGER else cur.home
  }

  /** A lock opens an escrow that is named by its version, and its completion empties that; no other
      state has one. */
  predicate EscrowMoves(cur: State, s: State) {
    var a := s.transition.amount.value;
    match s.transition.kind
    case MutualLock => Opens(s) && s.escrow.value == Ledger(s.escrow.value.token, s.escrow.value.chain, a, a, 0.0, 0.0)
    case EscrowLock => Opens(s) && s.escrow.value == Ledger(s.escrow.value.token, s.escrow.value.chain, 0.0, 0.0, a, a)
    case EscrowDeposit => Completes(cur, s) && s.escrow.value
      == Ledger(cur.escrow.value.token, cur.escrow.value.chain, 0.0, a, 0.0, -a)
    case EscrowWithdraw => Completes(cur, s) && s.escrow.value
      == Ledger(cur.escrow.value.token, cur.escrow.value.chain, 0.0, -a, 0.0, a)
    case _ => s.escrow.None? && s.escrowChannel.None?
  }

  predicate Opens(s: State) {
    && s.homeChannel.Some? && s.escrowChannel == Some(EscrowChannelId(s.homeChannel.value, s.version))
    && s.escrow.Some?
  }

  predicate Completes(cur: State, s: State) {
    cur.escrow.Some? && s.escrow.Some? && s.escrowChannel == cur.escrowChannel
  }

  /** An escrow is on another chain, and of some token there. */
  predicate Elsewhere(s: State) {
    s.escrow.Some? ==> s.escrow.value.token != "" && s.escrow.value.chain != 0 && s.escrow.value.chain != s.home.chain
  }

  /** A lock is followed by its completion, of the same amount, and by nothing else; an
      acknowledgement only follows a state that the user has not signed; a lock of own funds needs
      them, and a finalization is of all of them. */
  predicate Timely(cur: State, p: State) {
    var t, last := p.transition, cur.transition;
    && (last.kind == MutualLock <==> t.kind == EscrowDeposit) && (last.kind == EscrowLock <==> t.kind == EscrowWithdraw)
    && (IsLock(last.kind) ==> t.amount.value == last.amount.value)
    && (t.kind == Acknowledgement ==> !cur.userSigned)
    && (t.kind == EscrowLock ==> t.amount.value <= Start(cur).userBalance)
    && (t.kind == Finalize ==> t.amount.value == Start(cur).userBalance)
  }

  predicate Acceptable(cur: State, p: State, decimals: Option<nat>) {
    && decimals.Some? && -p.transition.amount.exponent <= decimals.value
    && NextInLine(cur, p) && ChannelKept(cur, p)
    && OwnAccount(p) && OwnTxId(p) && OwnAmount(p) && Timely(cur, p)
    && HomeMoves(Start(cur), p) && p.home.userBalance >= 0.0
    && EscrowMoves(cur, p) && Elsewhere(p)
  }

  // ---------- What a request builds ----------

  predicate ForEscrow(r: Request) {
    r.LockMutual? || r.LockEscrow? || r.DepositEscrow? || r.WithdrawEscrow?
  }

  lemma BuiltHome(b: State, r: Request)
    requires Apply(b, r).Some? && !r.ReceiveTransfer? && !r.ReleaseFrom?
    requires b.home.nodeBalance == 0.0 || r.DepositEscrow?
    ensures HomeMoves(b.home, Apply(b, r).value)
  {
    if ForEscrow(r) {
      BuiltHomeEscrow(b, r);
    } else {
      BuiltHomeOnly(b, r);
    }
  }

  lemma BuiltHomeEscrow(b: State, r: Request)
    requires Apply(b, r).Some? && ForEscrow(r) && (b.home.nodeBalance == 0.0 || r.DepositEscrow?)
    ensures HomeMoves(b.home, Apply(b, r).value)
  {}

  lemma BuiltHomeOnly(b: State, r: Request)
    requires Apply(b, r).Some? && !ForEscrow(r) && !r.ReceiveTransfer? && !r.ReleaseFrom? && b.home.nodeBalance == 0.0
    ensures HomeMoves(b.home, Apply(b, r).value)
  {}

  lemma FromStart(cur: State, p: State, s: State)
    requires Sound(cur) && HomeMoves(Base(cur, p).home, s)
    ensures HomeMoves(Start(cur), s)
  {}

  lemma BuiltEscrow(cur: State, b: State, r: Request)
    requires Sound(cur) && Ready(cur, b) && Guard(cur, r)
    requires Apply(b, r).Some? && !r.ReceiveTransfer? && !r.ReleaseFrom?
    requires IsLock(cur.transition.kind) ==> r.DepositEscrow? || r.WithdrawEscrow?
    ensures EscrowMoves(cur, Apply(b, r).value)
  {}

  lemma Agree(cur: State, a: State, b: State)
    requires a.id == b.id && a.asset == b.asset && a.wallet == b.wallet && a.epoch == b.epoch && a.version == b.version
    requires a.homeChannel == b.homeChannel && a.home.chain == b.home.chain && a.home.token == b.home.token
    requires SameTransition(a.transition, b.transition)
    requires HomeMoves(Start(cur), a) && HomeMoves(Start(cur), b) && EscrowMoves(cur, a) && EscrowMoves(cur, b)
    requires IsLock(a.transition.kind) ==>
      a.escrow.value.chain == b.escrow.value.chain && a.escrow.value.token == b.escrow.value.token
    ensures SameState(a, b)
  {}

  lemma BuiltMoves(cur: State, p: State, r: Request)
    requires Sound(cur) && Guard(cur, r) && LockRule(cur.transition.kind, p.transition.kind) && RequestOf(p) == Some(r)
    requires Apply(Base(cur, p), r).Some?
    ensures var e := Apply(Base(cur, p), r).value; HomeMoves(Start(cur), e) && EscrowMoves(cur, e)
  {
    NextReady(cur, p);
    BuiltHome(Base(cur, p), r);
    FromStart(cur, p, Apply(Base(cur, p), r).value);
    BuiltEscrow(cur, Base(cur, p), r);
  }

  // ---------- Accepted states ----------

  lemma SameMoves(cur: State, a: State, b: State)
    requires SameState(a, b) && HomeMoves(Start(cur), a) && EscrowMoves(cur, a)
    ensures HomeMoves(Start(cur), b) && EscrowMoves(cur, b)
  {}

  lemma AcceptedMoves(cur: State, p: State, decimals: Option<nat>)
    requires Sound(cur) && Checked(cur, p, decimals)
    ensures HomeMoves(Start(cur), p) && EscrowMoves(cur, p)
  {
    BuiltMoves(cur, p, RequestOf(p).value);
    SameMoves(cur, Expected(cur, p).value, p);
  }

  lemma AcceptedInLine(cur: State, p: State, decimals: Option<nat>)
    requires Header(cur, p, decimals) && ValidLedgers(p) && SameHome(Base(cur, p), p)
    ensures NextInLine(cur, p) && ChannelKept(cur, p) && Elsewhere(p)
    ensures decimals.Some? && -p.transition.amount.exponent <= decimals.value
  {}

  lemma AcceptedHome(cur: State, p: State, decimals: Option<nat>)
    requires Checked(cur, p, decimals)
    ensures SameHome(Base(cur, p), p)
  {
    ApplyKeepsHome(Base(cur, p), RequestOf(p).value);
  }

  lemma AcceptedTimely(cur: State, p: State, decimals: Option<nat>)
    requires Sound(cur) && Checked(cur, p, decimals)
    ensures Timely(cur, p)
  {}

  // ---------- Acceptable states ----------

  lemma AcceptableHeader(cur: State, p: State, decimals: Option<nat>)
    requires Acceptable(cur, p, decimals)
    ensures Header(cur, p, decimals) && SameHome(Base(cur, p), p)
  {}

  lemma AcceptableLedgers(cur: State, p: State, decimals: Option<nat>)
    requires Sound(cur) && Acceptable(cur, p, decimals)
    ensures ValidLedgers(p)
  {}

  lemma AcceptableGuard(cur: State, p: State)
    requires OwnAccount(p) && Timely(cur, p) && EscrowMoves(cur, p)
    ensures RequestOf(p).Some? && Guard(cur, RequestOf(p).value)
  {}

  lemma AcceptableApplies(cur: State, b: State, p: State)
    requires Ready(cur, b) && b.home.userBalance == Start(cur).userBalance && b.homeChannel.Some?
    requires Timely(cur, p) && EscrowMoves(cur, p) && Elsewhere(p) && RequestOf(p).Some?
    requires !p.transition.kind.TransferReceive? && !p.transition.kind.Release?
    requires IsLock(cur.transition.kind) ==> cur.escrowChannel.Some?
    ensures Apply(b, RequestOf(p).value).Some?
  {}

  lemma AcceptableTransition(cur: State, p: State, decimals: Option<nat>)
    requires Sound(cur) && Acceptable(cur, p, decimals) && Header(cur, p, decimals)
    requires RequestOf(p).Some? && Apply(Base(cur, p), RequestOf(p).value).Some?
    ensures SameTransition(Apply(Base(cur, p), RequestOf(p).value).value.transition, p.transition)
  {
    var b := Base(cur, p);
    NextReady(cur, p);
    StartBalance(cur, p);
    if ForEscrow(RequestOf(p).value) {
      EscrowTransition(cur, b, p);
    } else {
      HomeTransition(b, p);
    }
  }

  lemma StartBalance(cur: State, p: State)
    requires Sound(cur)
    ensures Base(cur, p).home.userBalance == Start(cur).userBalance
  {}

  lemma HomeTransition(b: State, p: State)
    requires RequestOf(p).Some? && !ForEscrow(RequestOf(p).value) && Apply(b, RequestOf(p).value).Some?
    requires b.id == p.id && b.homeChannel == p.homeChannel
    requires OwnAccount(p) && OwnTxId(p) && OwnAmount(p)
    requires p.transition.kind == Finalize ==> p.transition.amount.value == b.home.userBalance
    ensures SameTransition(Apply(b, RequestOf(p).value).value.transition, p.transition)
  {}

  lemma EscrowTransition(cur: State, b: State, p: State)
    requires RequestOf(p).Some? && ForEscrow(RequestOf(p).value) && Apply(b, RequestOf(p).value).Some?
    requires Ready(cur, b) && Timely(cur, p) && EscrowMoves(cur, p)
    requires b.id == p.id && b.homeChannel == p.homeChannel && b.version == p.version
    requires OwnAccount(p) && OwnTxId(p)
    ensures SameTransition(Apply(b, RequestOf(p).value).value.transition, p.transition)
  {}

  lemma AcceptableBuilt(cur: State, p: State, decimals: Option<nat>)
    requires Sound(cur) && Acceptable(cur, p, decimals)
    ensures Expected(cur, p).Some? && SameState(Expected(cur, p).value, p)
  {
    AcceptableHeader(cur, p, decimals);
    AcceptableGuard(cur, p);
    NextReady(cur, p);
    StartBalance(cur, p);
    AcceptableApplies(cur, Base(cur, p), p);
    AcceptableTransition(cur, p, decimals);
    BuiltMoves(cur, p, RequestOf(p).value);
    BuiltAgrees(cur, Base(cur, p), p, RequestOf(p).value);
  }

  lemma BuiltAgrees(cur: State, b: State, p: State, r: Request)
    requires RequestOf(p) == Some(r) && Apply(b, r).Some? && SameTransition(Apply(b, r).value.transition, p.transition)
    requires b.id == p.id && b.asset == p.asset && b.wallet == p.wallet && b.epoch == p.epoch && b.version == p.version
    requires SameHome(b, p) && HomeMoves(Start(cur), Apply(b, r).value) && HomeMoves(Start(cur), p)
    requires EscrowMoves(cur, Apply(b, r).value) && EscrowMoves(cur, p)
    ensures SameState(Apply(b, r).value, p)
  {
    ApplyKeeps(b, r);
    ApplyKeepsHome(b, r);
    Agree(cur, Apply(b, r).value, p);
  }

  /** The reference: after a sound state, validation accepts exactly the states with these fields. */
  lemma AcceptedIff(cur: State, p: State, decimals: Option<nat>)
    requires Sound(cur)
    ensures Advances(cur, p, decimals) <==> Acceptable(cur, p, decimals)
  {
    CheckedIsAdvancing(cur, p, decimals);
    if Advances(cur, p, decimals) {
      AdvancesCarries(cur, p, decimals);
      AdvancesAmount(cur, p, decimals);
      AcceptedMoves(cur, p, decimals);
      AcceptedHome(cur, p, decimals);
      AcceptedInLine(cur, p, decimals);
      AcceptedTimely(cur, p, decimals);
    } else if Acceptable(cur, p, decimals) {
      AcceptableHeader(cur, p, decimals);
      AcceptableLedgers(cur, p, decimals);
      AcceptableBuilt(cur, p, decimals);
    }
  }
}
