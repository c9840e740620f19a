/** Validation of a state that a user proposes as the successor of the current one. */
module Advancer {
  import opened Options
  import opened Decimals
  import opened Channels

  /** Equal but for the signatures and the written form of the transition amount. */
  predicate SameState(a: State, b: State) {
    && a.id == b.id && a.asset == b.asset && a.wallet == b.wallet
    && a.epoch == b.epoch && a.version == b.version
    && a.homeChannel == b.homeChannel && a.escrowChannel == b.escrowChannel
    && a.home == b.home && a.escrow == b.escrow
    && SameTransition(a.transition, b.transition)
  }

  predicate SameTransition(a: Transition, b: Transition) {
    a.kind == b.kind && a.txId == b.txId && a.account == b.account && a.amount.value == b.amount.value
  }

  /** The successor that a transition is applied to. A user without a channel may name one,
      with the chain and the token of its home ledger. */
  function Base(cur: State, p: State): State {
    var next := NextState(cur);
    if next.homeChannel.Some? then next
    else next.(homeChannel := p.homeChannel, home := next.home.(chain := p.home.chain, token := p.home.token))
  }

  /** What a user may ask for after cur, whatever the ledgers hold. */
  predicate Allowed(cur: State, r: Request) {
    && (cur.transition.kind == MutualLock ==> r.DepositEscrow?)
    && (cur.transition.kind == EscrowLock ==> r.WithdrawEscrow?)
    && match r
       case Acknowledge => !cur.userSigned
       case DepositHome(amount) => amount.value > 0.0
       case WithdrawHome(amount) => amount.value > 0.0
       case SendTransfer(recipient, amount) => amount.value > 0.0
       case CommitTo(session, amount) => amount.value > 0.0
       case LockMutual(chain, token, amount) => amount.value > 0.0
       case LockEscrow(chain, token, amount) => amount.value > 0.0
       case DepositEscrow(amount) =>
         amount.value > 0.0 && cur.transition.kind == MutualLock && cur.transition.amount.value == amount.value
       case WithdrawEscrow(amount) =>
         amount.value > 0.0 && cur.transition.kind == EscrowLock && cur.transition.amount.value == amount.value
       case FinalizeHome => NextState(cur).home.userBalance >= 0.0
       case ReceiveTransfer(sender, amount, txId) => false
       case ReleaseFrom(session, amount) => false
       case MigrateHome(amount) => false
  }

  predicate ValidLedgers(s: State) {
    && ValidLedger(s.home)
    && (s.escrow.Some? ==> ValidLedger(s.escrow.value) && s.escrow.value.chain != s.home.chain)
  }

  /** p is, up to signatures and the written form of its amount, the state that some allowed
      request builds on top of cur, and its ledgers are valid. */
  ghost predicate Advances(cur: State, p: State, decimals: Option<nat>) {
    && decimals.Some? && PrecisionValid(p.transition.amount, decimals.value)
    && p.homeChannel.Some?
    && ValidLedgers(p)
    && exists r: Request :: Builds(cur, p, r)
  }

  ghost predicate Builds(cur: State, p: State, r: Request) {
    && Allowed(cur, r)
    && Apply(Base(cur, p), r).Some?
    && SameState(Apply(Base(cur, p), r).value, p)
  }

  /** The request that a proposed state stands for. */
  function RequestOf(p: State): Option<Request> {
    var t := p.transition;
    match t.kind
    case Acknowledgement => Some(Acknowledge)
    case HomeDeposit => Some(DepositHome(t.amount))
    case HomeWithdrawal => Some(WithdrawHome(t.amount))
    case TransferSend => Some(SendTransfer(t.account, t.amount))
    case Commit => Some(CommitTo(t.account, t.amount))
    case MutualLock =>
      if p.escrow.None? then None else Some(LockMutual(p.escrow.value.chain, p.escrow.value.token, t.amount))
    case EscrowDeposit => Some(DepositEscrow(t.amount))
    case EscrowLock =>
      if p.escrow.None? then None else Some(LockEscrow(p.escrow.value.chain, p.escrow.value.token, t.amount))
    case EscrowWithdraw => Some(WithdrawEscrow(t.amount))
    case Finalize => Some(FinalizeHome)
    case Void => None
    case TransferReceive => None
    case Release => None
    case Migrate => None
    case OtherKind(_) => None
  }

  /** A proposed state can only be built by the request it stands for. */
  lemma BuiltByItsRequest(cur: State, p: State, r: Request)
    requires Builds(cur, p, r)
    ensures RequestOf(p).Some? && Builds(cur, p, RequestOf(p).value)
  {
    AppliedByItsRequest(Base(cur, p), p, r);
  }

  /** The same request, but for the written form of the amount. */
  predicate SameRequest(r: Request, q: Request) {
    match r
    case Acknowledge => q == r
    case DepositHome(amount) => q.DepositHome? && q.amount.value == amount.value
    case WithdrawHome(amount) => q.WithdrawHome? && q.amount.value == amount.value
    case SendTransfer(recipient, amount) => q.SendTransfer? && q.recipient == recipient
      && q.amount.value == amount.value
    case CommitTo(session, amount) => q.CommitTo? && q.session == session && q.amount.value == amount.value
    case LockMutual(chain, token, amount) =>
      q.LockMutual? && q.chain == chain && q.token == token && q.amount.value == amount.value
    case DepositEscrow(amount) => q.DepositEscrow? && q.amount.value == amount.value
    case LockEscrow(chain, token, amount) =>
      q.LockEscrow? && q.chain == chain && q.token == token && q.amount.value == amount.value
    case WithdrawEscrow(amount) => q.WithdrawEscrow? && q.amount.value == amount.value
    case FinalizeHome => q == r
    case ReceiveTransfer(sender, amount, txId) => false
    case ReleaseFrom(session, amount) => false
    case MigrateHome(amount) => false
  }

  lemma AppliedByItsRequest(b: State, p: State, r: Request)
    requires Apply(b, r).Some? && SameState(Apply(b, r).value, p)
    requires !r.ReceiveTransfer? && !r.ReleaseFrom?
    ensures RequestOf(p).Some? && SameRequest(r, RequestOf(p).value)
    ensures Apply(b, RequestOf(p).value).Some? && SameState(Apply(b, RequestOf(p).value).value, p)
  {
    var e := Apply(b, r).value;
    assert SameRequest(r, RequestOf(p).value) by {
      assert e.transition.kind == p.transition.kind;
      if r.LockMutual? || r.LockEscrow? {
        assert e.escrow.value.chain == r.chain && e.escrow.value.token == r.token;
      }
    }
    SameResult(b, r, RequestOf(p).value);
  }

  lemma SameResult(b: State, r: Request, q: Request)
    requires Apply(b, r).Some? && SameRequest(r, q)
    ensures Apply(b, q).Some? && SameState(Apply(b, q).value, Apply(b, r).value)
  {}

  /** The guards that depend on the current state only. */
  predicate Guard(cur: State, r: Request) {
    match r
    case Acknowledge => !cur.userSigned
    case DepositEscrow(amount) => cur.transition.kind == MutualLock && cur.transition.amount.value == amount.value
    case WithdrawEscrow(amount) => cur.transition.kind == EscrowLock && cur.transition.amount.value == amount.value
    case _ => true
  }

  /** The successor that the request of a proposed state builds, if its guard lets it. */
  function Expected(cur: State, p: State): Option<State> {
    var r := RequestOf(p);
    if r.None? || !Guard(cur, r.value) then None else Apply(Base(cur, p), r.value)
  }

  /** Applies the transition that a proposed state carries to the expected state. */
  method ApplyProposed(cur: State, p: State, expected: MutableState) returns (ok: bool)
    requires expected.Value() == Base(cur, p)
    modifies expected
    ensures ok <==> Expected(cur, p).Some?
    ensures ok ==> Expected(cur, p) == Some(expected.Value())
  {
    var t, last := p.transition, cur.transition;
    match t.kind
    case Void => ok := false;
    case Acknowledgement =>
      if cur.userSigned { return false; }
      ok := expected.ApplyAcknowledgement();
    case HomeDeposit => ok := expected.ApplyHomeDeposit(t.amount);
    case HomeWithdrawal => ok := expected.ApplyHomeWithdrawal(t.amount);
    case TransferSend => ok := expected.ApplyTransferSend(t.account, t.amount);
    case Commit => ok := expected.ApplyCommit(t.account, t.amount);
    case MutualLock =>
      if p.escrow.None? { return false; }
      ok := expected.ApplyMutualLock(p.escrow.value.chain, p.escrow.value.token, t.amount);
    case EscrowDeposit =>
      if last.kind != MutualLock || last.amount.value != t.amount.value { return false; }
      ok := expected.ApplyEscrowDeposit(t.amount);
    case EscrowLock =>
      if p.escrow.None? { return false; }
      ok := expected.ApplyEscrowLock(p.escrow.value.chain, p.escrow.value.token, t.amount);
    case EscrowWithdraw =>
      if last.kind != EscrowLock || last.amount.value != t.amount.value { return false; }
      ok := expected.ApplyEscrowWithdraw(t.amount);
    case Migrate => ok := expected.ApplyMigrate(t.amount);
    case Finalize => ok := expected.ApplyFinalize();
    case TransferReceive => ok := false;
    case Release => ok := false;
    case OtherKind(_) => ok := false;
  }

  method ValidLedgerCheck(l: Ledger) returns (ok: bool)
    ensures ok <==> ValidLedger(l)
  {
    if l.token == "" || l.chain == 0 { return false; }
    if l.userBalance < 0.0 || l.nodeBalance < 0.0 { return false; }
    var sumBalances := l.userBalance + l.nodeBalance;
    var sumNetFlows := l.userNetFlow + l.nodeNetFlow;
    return sumBalances == sumNetFlows;
  }

  /** Compares the state that was built with the proposed one, and checks its ledgers. */
  method Compare(expected: State, p: State) returns (ok: bool)
    requires expected.id == p.id && expected.asset == p.asset && expected.wallet == p.wallet
    requires expected.epoch == p.epoch && expected.version == p.version && expected.homeChannel == p.homeChannel
    ensures ok <==> SameState(expected, p) && ValidLedgers(p)
  {
    if !SameTransition(expected.transition, p.transition) { return false; }
    if expected.home != p.home { return false; }
    var homeValid := ValidLedgerCheck(p.home);
    if !homeValid { return false; }
    if expected.escrowChannel.None? != p.escrowChannel.None? { return false; }
    if expected.escrowChannel.Some? && expected.escrowChannel.value != p.escrowChannel.value { return false; }
    if expected.escrow.None? != p.escrow.None? { return false; }
    if expected.escrow.Some? && p.escrow.Some? {
      if expected.escrow.value != p.escrow.value { return false; }
      var escrowValid := ValidLedgerCheck(p.escrow.value);
      if !escrowValid { return false; }
      if p.escrow.value.chain == p.home.chain { return false; }
    }
    return true;
  }

  /** The amount rule: zero for an acknowledgement, at least zero for a finalization,
      positive for everything else. */
  predicate AmountRule(t: Transition) {
    match t.kind
    case Acknowledgement => t.amount.value == 0.0
    case Finalize => t.amount.value >= 0.0
    case _ => t.amount.value > 0.0
  }

  /** The lock rule: a lock is only followed by the transition that completes it. */
  predicate LockRule(last: Kind, kind: Kind) {
    && (last == MutualLock ==> kind == EscrowDeposit)
    && (last == EscrowLock ==> kind == EscrowWithdraw)
  }

  /** What must hold of a proposed state before its transition is applied. */
  predicate Header(cur: State, p: State, decimals: Option<nat>) {
    var b := Base(cur, p);
    && p.homeChannel.Some? && p.homeChannel == b.homeChannel
    && p.version == b.version && p.wallet == b.wallet && p.asset == b.asset && p.epoch == b.epoch && p.id == b.id
    && decimals.Some? && PrecisionValid(p.transition.amount, decimals.value)
    && AmountRule(p.transition) && LockRule(cur.transition.kind, p.transition.kind)
  }

  method CheckHeader(cur: State, p: State, decimals: Option<nat>, b: State) returns (ok: bool)
    requires b == Base(cur, p) && p.homeChannel.Some?
    ensures ok <==> Header(cur, p, decimals)
  {
    if p.homeChannel != b.homeChannel { return false; }
    if p.version != b.version { return false; }
    if p.wallet != b.wallet { return false; }
    if p.asset != b.asset { return false; }
    if p.epoch != b.epoch { return false; }
    if p.id != b.id { return false; }
    if decimals.None? || !PrecisionValid(p.transition.amount, decimals.value) { return false; }
    var t, last := p.transition, cur.transition;
    match t.kind {
      case Acknowledgement => if t.amount.value != 0.0 { return false; }
      case Finalize => if t.amount.value < 0.0 { return false; }
      case _ => if t.amount.value <= 0.0 { return false; }
    }
    if last.kind == MutualLock {
      if t.kind != EscrowDeposit { return false; }
    } else if last.kind == EscrowLock {
      if t.kind != EscrowWithdraw { return false; }
    }
    return true;
  }

  /** The checks in the order the program makes them. */
  method ValidateFields(cur: State, p: State, decimals: Option<nat>) returns (ok: bool)
    ensures ok <==> Checked(cur, p, decimals)
  {
    var next := NextState(cur);
    var expected := new MutableState(next);
    if p.homeChannel.None? { return false; }
    if expected.homeChannel.None? {
      expected.AdoptChannel(p.homeChannel, p.home.chain, p.home.token);
    }
    var b := expected.Value();
    assert b == Base(cur, p);
    ok := CheckHeader(cur, p, decimals, b);
    if !ok { return false; }
    var applied := ApplyProposed(cur, p, expected);
    if !applied { return false; }
    ApplyKeeps(Base(cur, p), RequestOf(p).value);
    var built := expected.Value();
    ok := Compare(built, p);
  }

  predicate Checked(cur: State, p: State, decimals: Option<nat>) {
    && Header(cur, p, decimals)
    && Expected(cur, p).Some? && SameState(Expected(cur, p).value, p)
    && ValidLedgers(p)
  }

  /** A transition does not touch what identifies a state, nor its home channel. */
  lemma ApplyKeeps(s: State, r: Request)
    requires Apply(s, r).Some?
    ensures var e := Apply(s, r).value;
      && e.id == s.id && e.asset == s.asset && e.wallet == s.wallet && e.epoch == s.epoch && e.version == s.version
      && e.homeChannel == s.homeChannel && e.userSigned == s.userSigned && e.nodeSigned == s.nodeSigned
  {}

  /** The checks pass exactly for a state that its own request builds. */
  lemma CheckedIsBuilt(cur: State, p: State, decimals: Option<nat>)
    requires decimals.Some? && PrecisionValid(p.transition.amount, decimals.value)
    requires p.homeChannel.Some? && ValidLedgers(p) && RequestOf(p).Some?
    ensures Checked(cur, p, decimals) <==> Builds(cur, p, RequestOf(p).value)
  {
    var r := RequestOf(p).value;
    if Apply(Base(cur, p), r).Some? && SameState(Apply(Base(cur, p), r).value, p) {
      ApplyKeeps(Base(cur, p), r);
      AllowedIsChecked(cur, p, r);
    }
  }

  lemma AllowedIsChecked(cur: State, p: State, r: Request)
    requires RequestOf(p) == Some(r) && Apply(Base(cur, p), r).Some? && SameState(Apply(Base(cur, p), r).value, p)
    ensures Allowed(cur, r) <==>
            Guard(cur, r) && AmountRule(p.transition) && LockRule(cur.transition.kind, p.transition.kind)
  {
    var e := Apply(Base(cur, p), r).value;
    assert e.transition.amount.value == p.transition.amount.value;
  }

  /** Accepts exactly the states that advance the current one. */
  method ValidateAdvancement(cur: State, p: State, decimals: Option<nat>) returns (ok: bool)
    ensures ok <==> Advances(cur, p, decimals)
  {
    ok := ValidateFields(cur, p, decimals);
    CheckedIsAdvancing(cur, p, decimals);
  }

  lemma CheckedIsAdvancing(cur: State, p: State, decimals: Option<nat>)
    ensures Checked(cur, p, decimals) <==> Advances(cur, p, decimals)
  {
    if Checked(cur, p, decimals) {
      CheckedIsBuilt(cur, p, decimals);
    } else if Advances(cur, p, decimals) {
      var r :| Builds(cur, p, r);
      BuiltByItsRequest(cur, p, r);
      CheckedIsBuilt(cur, p, decimals);
    }
  }
}
