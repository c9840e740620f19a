/** The chain of states of one user and one asset: what every reachable chain keeps. */
module Chains {
  import opened Options
  import opened Decimals
  import opened Channels
  import opened Advancer

  /** Whose chain it is. */
  datatype Key = Key(wallet: Wallet, asset: Asset)

  function Last(k: Key, chain: seq<State>): State {
    if chain == [] then VoidState(k.wallet, k.asset) else chain[|chain| - 1]
  }

  /** The most recent state that both the user and the node signed. */
  function LastSigned(chain: seq<State>): Option<State> {
    if chain == [] then None
    else
      var s := chain[|chain| - 1];
      if s.userSigned && s.nodeSigned then Some(s) else LastSigned(chain[..|chain| - 1])
  }

  /** The node issues no state while the last co-signed one has an escrow channel. */
  predicate Gate(chain: seq<State>) {
    LastSigned(chain).None? || LastSigned(chain).value.escrowChannel.None?
  }

  /** A receive or a release that the node issues. */
  predicate IsIncoming(r: Request) {
    (r.ReceiveTransfer? || r.ReleaseFrom?) && r.amount.value > 0.0
  }

  /** The state the node issues for r: signed by the node alone, and only if there is a channel. */
  function Issued(cur: State, r: Request): (s: State)
    requires r.ReceiveTransfer? || r.ReleaseFrom?
  {
    var next := NextState(cur);
    var t := if r.ReceiveTransfer? then Transition(TransferReceive, r.txId, r.sender, r.amount)
             else OwnTransition(next, Release, r.session, r.amount);
    Receive(next, t).(nodeSigned := next.homeChannel.Some?)
  }

  /** It is the successor of the current state, with the request applied. */
  lemma IssuedIsApplied(cur: State, r: Request)
    requires r.ReceiveTransfer? || r.ReleaseFrom?
    ensures Apply(NextState(cur), r).Some?
    ensures Issued(cur, r) == var e := Apply(NextState(cur), r).value; e.(nodeSigned := e.homeChannel.Some?)
  {}

  ghost predicate UserStep(k: Key, chain: seq<State>, s: State, decimals: Option<nat>) {
    s.userSigned && s.nodeSigned && Advances(Last(k, chain), s, decimals)
  }

  ghost predicate NodeStep(k: Key, chain: seq<State>, s: State) {
    Gate(chain) && exists r: Request :: IsIncoming(r) && s == Issued(Last(k, chain), r)
  }

  /** A chain that grew from nothing by co-signed user states and node-issued states. */
  ghost predicate ValidChain(k: Key, chain: seq<State>, decimals: Option<nat>) {
    chain == [] ||
    var prefix, s := chain[..|chain| - 1], chain[|chain| - 1];
    ValidChain(k, prefix, decimals) && Extends(k, prefix, s, decimals)
  }

  ghost predicate Extends(k: Key, prefix: seq<State>, s: State, decimals: Option<nat>) {
    UserStep(k, prefix, s, decimals) || NodeStep(k, prefix, s)
  }

  /** The inductive ledger invariant. */
  ghost predicate Sound(s: State) {
    var t := s.transition;
    && Balanced(s.home) && s.home.userBalance >= 0.0
    && s.home.nodeBalance == (if t.kind == MutualLock then t.amount.value else 0.0)
    && (s.homeChannel.Some? ==> s.home.token != "" && s.home.chain != 0)
    && (t.kind == Finalize ==> s.home.userBalance == 0.0)
    && (s.escrow.Some? <==> IsEscrowKind(t.kind))
    && (s.escrowChannel.Some? <==> IsEscrowKind(t.kind))
    && (s.escrow.Some? ==> EscrowSound(s, s.escrow.value, t.amount.value))
  }

  ghost predicate EscrowSound(s: State, l: Ledger, amount: real) {
    && s.homeChannel.Some? && amount > 0.0 && (!IsLock(s.transition.kind) ==> s.version > 0)
    && l.token != "" && l.chain != 0 && l.chain != s.home.chain
    && s.escrowChannel == Some(EscrowChannelId(s.homeChannel.value,
         if IsLock(s.transition.kind) then s.version else s.version - 1))
    && match s.transition.kind
       case MutualLock => l == Ledger(l.token, l.chain, amount, amount, 0.0, 0.0)
       case EscrowDeposit => l == Ledger(l.token, l.chain, 0.0, amount, 0.0, -amount)
       case EscrowLock => l == Ledger(l.token, l.chain, 0.0, 0.0, amount, amount) && s.home.userBalance >= amount
       case EscrowWithdraw => l == Ledger(l.token, l.chain, 0.0, -amount, 0.0, amount)
       case _ => false
  }

  /** s is what r makes of the successor of cur, up to signatures and written amounts. */
  ghost predicate Moves(cur: State, s: State, r: Request) {
    Apply(Base(cur, s), r).Some? && SameState(Apply(Base(cur, s), r).value, s)
  }

  /** What the successor of a sound state starts from. */
  ghost predicate Ready(cur: State, b: State) {
    var last := cur.transition;
    && b.transition.kind == Void
    && Balanced(b.home) && b.home.userBalance >= 0.0
    && b.home.nodeBalance == (if last.kind == MutualLock then last.amount.value else 0.0)
    && (IsLock(last.kind) ==> b.escrow == cur.escrow && b.escrowChannel == cur.escrowChannel
                              && b.homeChannel == cur.homeChannel && b.home == cur.home
                              && b.version == cur.version + 1)
    && (!IsLock(last.kind) ==> b.escrow.None? && b.escrowChannel.None?)
  }

  lemma NextReady(cur: State, p: State)
    requires Sound(cur)
    ensures Ready(cur, NextState(cur)) && Ready(cur, Base(cur, p))
    ensures Base(cur, p).home.userBalance == NextState(cur).home.userBalance
    ensures NextState(cur).homeChannel.Some? ==> NextState(cur).home == cur.home && cur.homeChannel.Some?
  {}

  /** Whatever an allowed request builds on a sound state has balanced ledgers with
      non-negative node balances: of a built home ledger, the validation can only refuse a
      missing chain or token or an overdrawn user; of a built escrow ledger, nothing. */
  lemma BuiltLedgersBalance(cur: State, p: State, r: Request)
    requires Sound(cur) && Allowed(cur, r) && Apply(Base(cur, p), r).Some?
    ensures var e := Apply(Base(cur, p), r).value;
      && (ValidLedger(e.home) <==> e.home.token != "" && e.home.chain != 0 && e.home.userBalance >= 0.0)
      && (e.escrow.Some? ==> ValidLedger(e.escrow.value))
  {
    NextReady(cur, p);
    ReadyBalance(cur, Base(cur, p), r);
  }

  lemma ReadyBalance(cur: State, b: State, r: Request)
    requires Sound(cur) && Ready(cur, b) && Allowed(cur, r) && Apply(b, r).Some?
    ensures var e := Apply(b, r).value;
      && Balanced(e.home) && e.home.nodeBalance >= 0.0
      && (e.escrow.Some? ==> ValidLedger(e.escrow.value))
  {}

  /** Every state that validation accepts on top of a sound one is sound. */
  lemma UserStepSound(cur: State, p: State, decimals: Option<nat>)
    requires Sound(cur) && Advances(cur, p, decimals)
    ensures Sound(p)
  {
    var r :| Builds(cur, p, r);
    NextReady(cur, p);
    var e := Apply(Base(cur, p), r).value;
    ReadyBalance(cur, Base(cur, p), r);
    ReadyShape(cur, Base(cur, p), r);
    ReadyEscrow(cur, Base(cur, p), r);
    SameSound(e, p);
  }

  /** Which states hold an escrow, a locked node balance or an empty user balance. */
  lemma ReadyShape(cur: State, b: State, r: Request)
    requires Sound(cur) && Ready(cur, b) && Allowed(cur, r) && Apply(b, r).Some?
    ensures var e := Apply(b, r).value;
      && e.home.nodeBalance == (if e.transition.kind == MutualLock then e.transition.amount.value else 0.0)
      && (e.transition.kind == Finalize ==> e.home.userBalance == 0.0)
      && (e.escrow.Some? <==> IsEscrowKind(e.transition.kind))
      && (e.escrowChannel.Some? <==> IsEscrowKind(e.transition.kind))
  {}

  lemma ReadyEscrow(cur: State, b: State, r: Request)
    requires Sound(cur) && Ready(cur, b) && Allowed(cur, r) && Apply(b, r).Some?
    requires var e := Apply(b, r).value;
      e.homeChannel.Some? && ValidLedger(e.home) && (e.escrow.Some? ==> e.escrow.value.chain != e.home.chain)
    ensures var e := Apply(b, r).value;
      e.escrow.Some? ==> EscrowSound(e, e.escrow.value, e.transition.amount.value)
  {}

  lemma SameSound(e: State, p: State)
    requires SameState(e, p) && p.homeChannel.Some? && ValidLedgers(p)
    requires e.home.nodeBalance == (if e.transition.kind == MutualLock then e.transition.amount.value else 0.0)
    requires e.transition.kind == Finalize ==> e.home.userBalance == 0.0
    requires e.escrow.Some? <==> IsEscrowKind(e.transition.kind)
    requires e.escrowChannel.Some? <==> IsEscrowKind(e.transition.kind)
    requires e.escrow.Some? ==> EscrowSound(e, e.escrow.value, e.transition.amount.value)
    ensures Sound(p)
  {}

  /** Node-issued states, which no validation sees, are sound. */
  lemma IssuedSound(cur: State, r: Request)
    requires Sound(cur) && !IsLock(cur.transition.kind) && IsIncoming(r)
    ensures Sound(Issued(cur, r)) && Moves(cur, Issued(cur, r), r)
  {
    NextReady(cur, Issued(cur, r));
    IssuedIsApplied(cur, r);
  }

  lemma NodeStepKind(k: Key, prefix: seq<State>, s: State)
    requires NodeStep(k, prefix, s)
    ensures s.transition.kind == TransferReceive || s.transition.kind == Release
    ensures !s.userSigned
  {}

  /** A lock is co-signed, so that the gate closes behind it. */
  lemma LockClosesGate(k: Key, chain: seq<State>, decimals: Option<nat>)
    requires ValidChain(k, chain, decimals) && IsLock(Last(k, chain).transition.kind)
    ensures !Gate(chain)
  {
    var prefix, s := chain[..|chain| - 1], chain[|chain| - 1];
    if NodeStep(k, prefix, s) {
      NodeStepKind(k, prefix, s);
    } else {
      LockHasChannel(Last(k, prefix), s, decimals);
    }
  }

  lemma LockHasChannel(cur: State, s: State, decimals: Option<nat>)
    requires Advances(cur, s, decimals) && IsLock(s.transition.kind)
    ensures s.escrowChannel.Some?
  {
    var r :| Builds(cur, s, r);
    BuiltLockHasChannel(Base(cur, s), s, r);
  }

  lemma BuiltLockHasChannel(b: State, s: State, r: Request)
    requires Apply(b, r).Some? && SameState(Apply(b, r).value, s) && IsLock(s.transition.kind)
    ensures s.escrowChannel.Some?
  {
    assert IsLock(Apply(b, r).value.transition.kind);
  }

  /** The last state of a valid chain is sound, and carries the key of its chain. */
  lemma {:induction false} LastSound(k: Key, chain: seq<State>, decimals: Option<nat>)
    requires ValidChain(k, chain, decimals)
    ensures Sound(Last(k, chain))
    ensures Last(k, chain).wallet == k.wallet && Last(k, chain).asset == k.asset
  {
    if chain != [] {
      var prefix, s := chain[..|chain| - 1], chain[|chain| - 1];
      LastSound(k, prefix, decimals);
      var r := StepMoves(k, prefix, s, decimals);
      MovesKeeps(Last(k, prefix), s, r);
    }
  }

  lemma {:induction false} PrefixValid(k: Key, chain: seq<State>, n: nat, decimals: Option<nat>)
    requires ValidChain(k, chain, decimals) && n <= |chain|
    ensures ValidChain(k, chain[..n], decimals)
    decreases |chain| - n
  {
    if n == |chain| {
      assert chain[..n] == chain;
    } else {
      PrefixValid(k, chain, n + 1, decimals);
      assert chain[..n + 1][..n] == chain[..n];
    }
  }

  /** Every state of a valid chain, node-issued ones included, satisfies the invariant. */
  lemma ChainSound(k: Key, chain: seq<State>, i: nat, decimals: Option<nat>)
    requires ValidChain(k, chain, decimals) && i < |chain|
    ensures Sound(chain[i]) && chain[i].wallet == k.wallet && chain[i].asset == k.asset
  {
    PrefixValid(k, chain, i + 1, decimals);
    LastSound(k, chain[..i + 1], decimals);
  }

  /** A step keeps wallet and asset, and takes its identity from the successor. */
  lemma MovesKeeps(cur: State, s: State, r: Request)
    requires Moves(cur, s, r)
    ensures var n := NextState(cur);
      && s.wallet == cur.wallet && s.asset == cur.asset
      && s.id == n.id && s.epoch == n.epoch && s.version == n.version
      && (n.homeChannel.Some? ==> s.homeChannel == n.homeChannel)
  {
    ApplyKeeps(Base(cur, s), r);
  }

  /** Both kinds of step keep soundness and apply one request. */
  lemma StepMoves(k: Key, prefix: seq<State>, s: State, decimals: Option<nat>) returns (r: Request)
    requires ValidChain(k, prefix, decimals) && Sound(Last(k, prefix))
    requires Extends(k, prefix, s, decimals)
    ensures Sound(s) && Moves(Last(k, prefix), s, r)
    ensures UserStep(k, prefix, s, decimals) ==> Allowed(Last(k, prefix), r)
    ensures !UserStep(k, prefix, s, decimals) ==> IsIncoming(r) && !IsLock(Last(k, prefix).transition.kind)
  {
    var cur := Last(k, prefix);
    if UserStep(k, prefix, s, decimals) {
      UserStepSound(cur, s, decimals);
      r :| Builds(cur, s, r);
    } else {
      if IsLock(cur.transition.kind) {
        LockClosesGate(k, prefix, decimals);
      }
      r :| IsIncoming(r) && s == Issued(cur, r);
      IssuedSound(cur, r);
    }
  }

  /** The step that led to state i of a valid chain. */
  lemma StepAt(k: Key, chain: seq<State>, i: nat, decimals: Option<nat>) returns (cur: State, r: Request)
    requires ValidChain(k, chain, decimals) && i < |chain|
    ensures cur == Last(k, chain[..i]) && Sound(cur) && Sound(chain[i]) && Moves(cur, chain[i], r)
    ensures chain[i].wallet == k.wallet && chain[i].asset == k.asset
    ensures Allowed(cur, r) || (IsIncoming(r) && !IsLock(cur.transition.kind))
  {
    cur := Last(k, chain[..i]);
    PrefixValid(k, chain, i + 1, decimals);
    PrefixValid(k, chain, i, decimals);
    assert chain[..i + 1][..i] == chain[..i];
    LastSound(k, chain[..i], decimals);
    LastSound(k, chain[..i + 1], decimals);
    r := StepMoves(k, chain[..i], chain[i], decimals);
  }

  // ---------- Locks ----------

  /** The state that completes an open lock: the escrow deposit after a mutual lock, the
      escrow withdrawal after an escrow lock, of the locked amount. */
  function Completion(cur: State): Option<State> {
    var amount := cur.transition.amount;
    Apply(NextState(cur), if cur.transition.kind == MutualLock then DepositEscrow(amount) else WithdrawEscrow(amount))
  }

  /** In every chain a lock is only ever followed by the transition that completes it, of
      the same amount and on the same escrow channel: nothing comes in between. */
  lemma LockIsCompletedNext(k: Key, chain: seq<State>, i: nat, decimals: Option<nat>)
    requires ValidChain(k, chain, decimals) && i + 1 < |chain| && IsLock(chain[i].transition.kind)
    ensures Completion(chain[i]).Some? && SameState(Completion(chain[i]).value, chain[i + 1])
    ensures chain[i + 1].escrowChannel == chain[i].escrowChannel
  {
    var cur, r := StepAt(k, chain, i + 1, decimals);
    CompletedBy(cur, chain[i + 1], r);
  }

  lemma CompletedBy(cur: State, p: State, r: Request)
    requires Sound(cur) && IsLock(cur.transition.kind) && Allowed(cur, r) && Moves(cur, p, r)
    ensures Completion(cur).Some? && SameState(Completion(cur).value, p) && p.escrowChannel == cur.escrowChannel
  {
    assert Base(cur, p) == NextState(cur);
    var amount := cur.transition.amount;
    var q := if cur.transition.kind == MutualLock then DepositEscrow(amount) else WithdrawEscrow(amount);
    assert SameRequest(r, q);
    SameResult(NextState(cur), r, q);
    NextReady(cur, p);
  }

  /** Conversely, an escrow deposit or withdrawal always follows its lock. */
  lemma CompletionFollowsLock(k: Key, chain: seq<State>, i: nat, decimals: Option<nat>)
    requires ValidChain(k, chain, decimals) && i < |chain|
    requires chain[i].transition.kind == EscrowDeposit || chain[i].transition.kind == EscrowWithdraw
    ensures i > 0 && chain[i - 1].transition.amount.value == chain[i].transition.amount.value
    ensures chain[i - 1].transition.kind == if chain[i].transition.kind == EscrowDeposit then MutualLock else EscrowLock
  {
    var cur, r := StepAt(k, chain, i, decimals);
    CompletesLock(cur, chain[i], r);
    LastIsBefore(k, chain, i);
  }

  lemma LastIsBefore(k: Key, chain: seq<State>, i: nat)
    requires i < |chain| && Last(k, chain[..i]).transition.kind != Void
    ensures i > 0 && Last(k, chain[..i]) == chain[i - 1]
  {}

  lemma CompletesLock(cur: State, s: State, r: Request)
    requires Moves(cur, s, r) && (Allowed(cur, r) || IsIncoming(r))
    requires s.transition.kind == EscrowDeposit || s.transition.kind == EscrowWithdraw
    ensures cur.transition.amount.value == s.transition.amount.value
    ensures cur.transition.kind == if s.transition.kind == EscrowDeposit then MutualLock else EscrowLock
  {
    var e := Apply(Base(cur, s), r).value;
    assert e.transition.kind == s.transition.kind;
  }

  /** No lock is stuck: whatever the amount locked, the completing state passes validation. */
  lemma CompletionAccepted(cur: State, decimals: nat)
    requires Sound(cur) && IsLock(cur.transition.kind) && PrecisionValid(cur.transition.amount, decimals)
    ensures Completion(cur).Some? && Advances(cur, Completion(cur).value, Some(decimals))
  {
    var r := if cur.transition.kind == MutualLock then DepositEscrow(cur.transition.amount)
             else WithdrawEscrow(cur.transition.amount);
    var p := Completion(cur).value;
    CompletionValid(cur);
    assert Builds(cur, p, r);
  }

  lemma CompletionValid(cur: State)
    requires Sound(cur) && IsLock(cur.transition.kind)
    ensures Completion(cur).Some? && ValidLedgers(Completion(cur).value) && Completion(cur).value.homeChannel.Some?
  {}

  /** No user is stuck: outside a lock, a user with a channel can always finalize it and
      take the whole balance. */
  lemma FinalizeAccepted(cur: State, p: State, decimals: nat)
    requires Sound(cur) && !IsLock(cur.transition.kind)
    requires NextState(cur).homeChannel.Some?
    requires Apply(NextState(cur), FinalizeHome).Some?
    requires SameState(Apply(NextState(cur), FinalizeHome).value, p) && PrecisionValid(p.transition.amount, decimals)
    ensures Advances(cur, p, Some(decimals)) && p.transition.amount.value == cur.home.userBalance
  {
    NextReady(cur, p);
    assert Builds(cur, p, FinalizeHome);
  }

  // ---------- Identity and order ----------

  predicate Before(a: State, b: State) {
    a.epoch < b.epoch || (a.epoch == b.epoch && a.version < b.version)
  }

  lemma NextIsLater(cur: State, s: State, r: Request)
    requires Moves(cur, s, r)
    ensures Before(cur, s)
    ensures s.id == StateId(s.wallet, s.asset, s.epoch, s.version)
  {
    MovesKeeps(cur, s, r);
  }

  lemma StepIsLater(k: Key, chain: seq<State>, i: nat, decimals: Option<nat>)
    requires ValidChain(k, chain, decimals) && i < |chain|
    ensures Before(Last(k, chain[..i]), chain[i])
    ensures chain[i].id == StateId(k.wallet, k.asset, chain[i].epoch, chain[i].version)
  {
    var cur, r := StepAt(k, chain, i, decimals);
    NextIsLater(cur, chain[i], r);
  }

  ghost predicate Linked(chain: seq<State>) {
    forall n :: 0 < n < |chain| ==> Before(chain[n - 1], chain[n])
  }

  lemma {:induction false} LinkedOrdered(chain: seq<State>, i: nat, j: nat)
    requires Linked(chain) && i < j < |chain|
    ensures Before(chain[i], chain[j])
    decreases j
  {
    if i < j - 1 {
      LinkedOrdered(chain, i, j - 1);
    }
  }

  lemma ChainLinked(k: Key, chain: seq<State>, decimals: Option<nat>)
    requires ValidChain(k, chain, decimals)
    ensures Linked(chain)
    ensures forall n :: 0 <= n < |chain| ==>
      chain[n].id == StateId(k.wallet, k.asset, chain[n].epoch, chain[n].version)
  {
    forall n | 0 <= n < |chain|
      ensures n > 0 ==> Before(chain[n - 1], chain[n])
      ensures chain[n].id == StateId(k.wallet, k.asset, chain[n].epoch, chain[n].version)
    {
      StepIsLater(k, chain, n, decimals);
    }
  }

  /** Along a chain, (epoch, version) strictly increases, so no two states share an identifier. */
  lemma ChainOrdered(k: Key, chain: seq<State>, i: nat, j: nat, decimals: Option<nat>)
    requires ValidChain(k, chain, decimals) && i < j < |chain|
    ensures Before(chain[i], chain[j]) && chain[i].id != chain[j].id
  {
    ChainLinked(k, chain, decimals);
    LinkedOrdered(chain, i, j);
  }

  ghost predicate HomeKept(chain: seq<State>) {
    forall n :: 0 < n < |chain| && chain[n - 1].epoch == chain[n].epoch && chain[n - 1].homeChannel.Some?
      ==> SameHome(chain[n - 1], chain[n])
  }

  lemma {:induction false} KeptHome(chain: seq<State>, i: nat, j: nat)
    requires Linked(chain) && HomeKept(chain) && i <= j < |chain|
    requires chain[i].epoch == chain[j].epoch && chain[i].homeChannel.Some?
    ensures SameHome(chain[i], chain[j])
    decreases j
  {
    if i < j {
      if i < j - 1 {
        LinkedOrdered(chain, i, j - 1);
      }
      KeptHome(chain, i, j - 1);
    }
  }

  /** Within an epoch a home channel, once set, is kept with its chain and its token. */
  lemma HomeChannelFixed(k: Key, chain: seq<State>, i: nat, j: nat, decimals: Option<nat>)
    requires ValidChain(k, chain, decimals) && i <= j < |chain|
    requires chain[i].epoch == chain[j].epoch && chain[i].homeChannel.Some?
    ensures SameHome(chain[i], chain[j])
  {
    ChainLinked(k, chain, decimals);
    forall n | 0 < n < |chain| && chain[n - 1].epoch == chain[n].epoch && chain[n - 1].homeChannel.Some?
      ensures SameHome(chain[n - 1], chain[n])
    {
      StepKeepsHome(k, chain, n, decimals);
    }
    KeptHome(chain, i, j);
  }

  predicate SameHome(a: State, b: State) {
    a.homeChannel == b.homeChannel && a.home.chain == b.home.chain && a.home.token == b.home.token
  }

  lemma StepKeepsHome(k: Key, chain: seq<State>, j: nat, decimals: Option<nat>)
    requires ValidChain(k, chain, decimals) && 0 < j < |chain|
    requires chain[j - 1].epoch == chain[j].epoch && chain[j - 1].homeChannel.Some?
    ensures SameHome(chain[j - 1], chain[j])
  {
    var cur, r := StepAt(k, chain, j, decimals);
    LastOfPrefix(k, chain, j);
    KeepsHome(cur, chain[j], r);
  }

  lemma LastOfPrefix(k: Key, chain: seq<State>, j: nat)
    requires 0 < j <= |chain|
    ensures Last(k, chain[..j]) == chain[j - 1]
  {}

  lemma KeepsHome(cur: State, s: State, r: Request)
    requires Moves(cur, s, r) && s.epoch == cur.epoch && cur.homeChannel.Some?
    ensures SameHome(cur, s)
  {
    MovesKeeps(cur, s, r);
    ApplyKeepsHome(Base(cur, s), r);
  }

  lemma ApplyKeepsHome(b: State, r: Request)
    requires Apply(b, r).Some?
    ensures Apply(b, r).value.home.chain == b.home.chain && Apply(b, r).value.home.token == b.home.token
  {}
}
