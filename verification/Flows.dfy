/** What a chain of states has moved in total, over all its epochs and escrow ledgers. */
module Flows {
  import opened Options
  import opened Channels
  import opened Advancer
  import opened Chains

  function NodeFlow(l: Ledger): real { l.nodeNetFlow }

  function UserFlow(l: Ledger): real { l.userNetFlow }

  function Balances(l: Ledger): real { l.userBalance + l.nodeBalance }

  function OfEscrow(s: State, f: Ledger -> real): real {
    if s.escrow.Some? then f(s.escrow.value) else 0.0
  }

  /** State i stands for its epoch's home ledger if it is the last state of its epoch, and
      for its escrow ledger if it is the last state with that escrow channel. */
  function Counted(chain: seq<State>, i: nat, f: Ledger -> real): real
    requires i < |chain|
  {
    var s, end := chain[i], i == |chain| - 1;
    (if end || s.transition.kind == Finalize then f(s.home) else 0.0)
    + (if end || chain[i + 1].escrowChannel != s.escrowChannel then OfEscrow(s, f) else 0.0)
  }

  ghost function CountedBefore(chain: seq<State>, f: Ledger -> real, n: nat): real
    requires n <= |chain|
  {
    if n == 0 then 0.0 else CountedBefore(chain, f, n - 1) + Counted(chain, n - 1, f)
  }

  /** f summed over the final home ledger of every epoch and over every escrow ledger. */
  ghost function Total(chain: seq<State>, f: Ledger -> real): real {
    CountedBefore(chain, f, |chain|)
  }

  lemma {:induction false} CountedSame(chain: seq<State>, s: State, f: Ledger -> real, n: nat)
    requires n < |chain|
    ensures CountedBefore(chain + [s], f, n) == CountedBefore(chain, f, n)
  {
    if n > 0 {
      CountedSame(chain, s, f, n - 1);
      assert Counted(chain + [s], n - 1, f) == Counted(chain, n - 1, f);
    }
  }

  /** What a new state adds: its own ledgers, less those of the last state that it continues. */
  lemma TotalAppend(chain: seq<State>, s: State, f: Ledger -> real)
    requires chain != []
    ensures var last := chain[|chain| - 1];
      Total(chain + [s], f) == Total(chain, f)
        + f(s.home) - (if last.transition.kind == Finalize then 0.0 else f(last.home))
        + OfEscrow(s, f) - (if s.escrowChannel == last.escrowChannel then OfEscrow(last, f) else 0.0)
  {
    var n := |chain| - 1;
    CountedSame(chain, s, f, n);
    var whole := chain + [s];
    assert whole[n] == chain[n] && whole[n + 1] == s;
    assert CountedBefore(whole, f, n + 1) == CountedBefore(whole, f, n) + Counted(whole, n, f);
    assert Total(whole, f) == CountedBefore(whole, f, n + 1) + Counted(whole, n + 1, f);
    assert Total(chain, f) == CountedBefore(chain, f, n) + Counted(chain, n, f);
  }

  lemma TotalSingle(s: State, f: Ledger -> real)
    ensures Total([s], f) == f(s.home) + OfEscrow(s, f)
  {
    assert CountedBefore([s], f, 0) == 0.0;
    assert Counted([s], 0, f) == f(s.home) + OfEscrow(s, f);
  }

  /** The amount of an open lock, mutual or escrow. */
  function OpenLock(s: State): real {
    if IsLock(s.transition.kind) then s.transition.amount.value else 0.0
  }

  function OpenMutualLock(s: State): real {
    if s.transition.kind == MutualLock then s.transition.amount.value else 0.0
  }

  function LastLock(chain: seq<State>): real {
    if chain == [] then 0.0 else OpenLock(chain[|chain| - 1])
  }

  /** What the node has sent into a chain and not locked. */
  ghost function Excess(chain: seq<State>): real {
    Total(chain, NodeFlow) - LastLock(chain)
  }

  /** What a state brings in from, or takes out to, another account of the node. */
  function Gain(s: State): real {
    match s.transition.kind
    case TransferReceive => s.transition.amount.value
    case Release => s.transition.amount.value
    case TransferSend => -s.transition.amount.value
    case Commit => -s.transition.amount.value
    case _ => 0.0
  }

  /** The node flow that one step adds to the home ledger and to the escrow ledger. */
  lemma StepFlow(cur: State, s: State, r: Request)
    requires Sound(cur) && Sound(s) && Moves(cur, s, r)
    requires Allowed(cur, r) || (IsIncoming(r) && !IsLock(cur.transition.kind))
    ensures s.home.nodeNetFlow - (if cur.transition.kind == Finalize then 0.0 else cur.home.nodeNetFlow)
          + OfEscrow(s, NodeFlow) - (if s.escrowChannel == cur.escrowChannel then OfEscrow(cur, NodeFlow) else 0.0)
          == Gain(s) + OpenLock(s) - OpenLock(cur)
  {
    NextReady(cur, s);
    HomeFlow(cur, s, r);
    EscrowFlow(cur, s, r);
  }

  lemma HomeFlow(cur: State, s: State, r: Request)
    requires Moves(cur, s, r)
    ensures s.home.nodeNetFlow - (if cur.transition.kind == Finalize then 0.0 else cur.home.nodeNetFlow)
      == Gain(s) + (if s.transition.kind == MutualLock then s.transition.amount.value
                    else if s.transition.kind == EscrowWithdraw then -s.transition.amount.value else 0.0)
  {
    assert NextState(cur).home.nodeNetFlow == if cur.transition.kind == Finalize then 0.0 else cur.home.nodeNetFlow;
    assert Base(cur, s).home.nodeNetFlow == NextState(cur).home.nodeNetFlow;
    ApplyFlow(Base(cur, s), r);
  }

  lemma ApplyFlow(b: State, r: Request)
    requires Apply(b, r).Some?
    ensures var s := Apply(b, r).value;
      s.home.nodeNetFlow - b.home.nodeNetFlow
      == Gain(s) + (if s.transition.kind == MutualLock then s.transition.amount.value
                    else if s.transition.kind == EscrowWithdraw then -s.transition.amount.value else 0.0)
  {}

  lemma EscrowFlow(cur: State, s: State, r: Request)
    requires Sound(cur) && Sound(s) && Moves(cur, s, r)
    requires Allowed(cur, r) || (IsIncoming(r) && !IsLock(cur.transition.kind))
    ensures OfEscrow(s, NodeFlow) - (if s.escrowChannel == cur.escrowChannel then OfEscrow(cur, NodeFlow) else 0.0)
      == OpenLock(s) - OpenLock(cur)
         - (if s.transition.kind == MutualLock then s.transition.amount.value
            else if s.transition.kind == EscrowWithdraw then -s.transition.amount.value else 0.0)
  {
    if IsLock(cur.transition.kind) {
      CompletedBy(cur, s, r);
      LockCompletion(cur);
    } else {
      FreshEscrow(cur, s, r);
    }
  }

  lemma LockCompletion(cur: State)
    requires Sound(cur) && IsLock(cur.transition.kind) && Completion(cur).Some?
    ensures var s := Completion(cur).value; var amount := cur.transition.amount.value;
      && s.transition.amount.value == amount && s.escrow.Some?
      && (cur.transition.kind == MutualLock ==>
            s.transition.kind == EscrowDeposit && OfEscrow(s, NodeFlow) == OfEscrow(cur, NodeFlow) - amount)
      && (cur.transition.kind == EscrowLock ==>
            s.transition.kind == EscrowWithdraw && OfEscrow(s, NodeFlow) == OfEscrow(cur, NodeFlow))
  {}

  /** Outside a lock, a state with an escrow ledger is a new lock on a channel of its own. */
  lemma FreshEscrow(cur: State, s: State, r: Request)
    requires Sound(cur) && Sound(s) && Moves(cur, s, r) && !IsLock(cur.transition.kind)
    requires Allowed(cur, r) || IsIncoming(r)
    ensures s.escrow.Some? ==> IsLock(s.transition.kind)
    ensures cur.escrow.Some? ==> s.escrowChannel != cur.escrowChannel
  {
    if s.transition.kind == EscrowDeposit || s.transition.kind == EscrowWithdraw {
      CompletesLock(cur, s, r);
    }
    MovesKeeps(cur, s, r);
  }

  /** Along a valid chain, what the node has sent in and not locked changes by exactly what
      the new state brings in or takes out. */
  lemma ExcessStep(k: Key, chain: seq<State>, s: State, decimals: Option<nat>)
    requires ValidChain(k, chain + [s], decimals)
    ensures Excess(chain + [s]) == Excess(chain) + Gain(s)
  {
    var whole := chain + [s];
    assert whole[..|chain|] == chain;
    var cur, r := StepAt(k, whole, |chain|, decimals);
    StepFlow(cur, s, r);
    if chain == [] {
      assert whole == [s];
      TotalSingle(s, NodeFlow);
    } else {
      TotalAppend(chain, s, NodeFlow);
    }
  }

  // ---------- What users bring in ----------

  /** What a state brings in from, or takes out to, a chain: on the home chain by deposits,
      withdrawals and finalizing, on the escrow chain by mutual locks and escrow withdrawals. */
  function Inflow(s: State): real {
    match s.transition.kind
    case HomeDeposit => s.transition.amount.value
    case MutualLock => s.transition.amount.value
    case HomeWithdrawal => -s.transition.amount.value
    case EscrowWithdraw => -s.transition.amount.value
    case Finalize => -s.transition.amount.value
    case _ => 0.0
  }

  lemma UserHomeFlow(cur: State, s: State, r: Request)
    requires Moves(cur, s, r)
    ensures s.home.userNetFlow - (if cur.transition.kind == Finalize then 0.0 else cur.home.userNetFlow)
      == (if s.transition.kind == MutualLock || s.transition.kind == EscrowWithdraw then 0.0 else Inflow(s))
  {
    assert NextState(cur).home.userNetFlow == if cur.transition.kind == Finalize then 0.0 else cur.home.userNetFlow;
    assert Base(cur, s).home.userNetFlow == NextState(cur).home.userNetFlow;
    ApplyUserFlow(Base(cur, s), r);
  }

  lemma ApplyUserFlow(b: State, r: Request)
    requires Apply(b, r).Some?
    ensures var s := Apply(b, r).value;
      s.home.userNetFlow - b.home.userNetFlow
      == (if s.transition.kind == MutualLock || s.transition.kind == EscrowWithdraw then 0.0 else Inflow(s))
  {}

  lemma UserEscrowFlow(cur: State, s: State, r: Request)
    requires Sound(cur) && Sound(s) && Moves(cur, s, r)
    requires Allowed(cur, r) || (IsIncoming(r) && !IsLock(cur.transition.kind))
    ensures OfEscrow(s, UserFlow) - (if s.escrowChannel == cur.escrowChannel then OfEscrow(cur, UserFlow) else 0.0)
      == (if s.transition.kind == MutualLock || s.transition.kind == EscrowWithdraw then Inflow(s) else 0.0)
  {
    if IsLock(cur.transition.kind) {
      CompletedBy(cur, s, r);
      LockCompletion(cur);
    } else {
      FreshEscrow(cur, s, r);
    }
  }

  /** Along a valid chain, what the user has brought in changes by exactly what the new state
      brings in or takes out on chain. */
  lemma InflowStep(k: Key, chain: seq<State>, s: State, decimals: Option<nat>)
    requires ValidChain(k, chain + [s], decimals)
    ensures Total(chain + [s], UserFlow) == Total(chain, UserFlow) + Inflow(s)
  {
    var whole := chain + [s];
    assert whole[..|chain|] == chain;
    var cur, r := StepAt(k, whole, |chain|, decimals);
    UserHomeFlow(cur, s, r);
    UserEscrowFlow(cur, s, r);
    if chain == [] {
      assert whole == [s];
      TotalSingle(s, UserFlow);
    } else {
      TotalAppend(chain, s, UserFlow);
    }
  }

  // ---------- What users can claim ----------

  /** What a user can claim: its home balance, and what it has locked towards it. */
  function Claim(s: State): real {
    s.home.userBalance + OpenMutualLock(s)
  }

  lemma {:induction false} FlowsBalance(chain: seq<State>, n: nat)
    requires n <= |chain|
    requires forall i :: 0 <= i < |chain| ==> Sound(chain[i])
    ensures CountedBefore(chain, Balances, n) == CountedBefore(chain, UserFlow, n) + CountedBefore(chain, NodeFlow, n)
  {
    if n > 0 {
      FlowsBalance(chain, n - 1);
      assert Sound(chain[n - 1]);
      LedgersBalance(chain[n - 1]);
    }
  }

  lemma LedgersBalance(s: State)
    requires Sound(s)
    ensures Balances(s.home) == UserFlow(s.home) + NodeFlow(s.home)
    ensures OfEscrow(s, Balances) == OfEscrow(s, UserFlow) + OfEscrow(s, NodeFlow)
    ensures OfEscrow(s, Balances) == OpenLock(s)
    ensures s.transition.kind == Finalize ==> Balances(s.home) == 0.0
  {}

  lemma {:induction false} NothingCounted(chain: seq<State>, f: Ledger -> real, n: nat)
    requires n <= |chain| && forall i :: 0 <= i < n ==> Counted(chain, i, f) == 0.0
    ensures CountedBefore(chain, f, n) == 0.0
  {
    if n > 0 {
      NothingCounted(chain, f, n - 1);
    }
  }

  /** Only the last state holds anything: finalized epochs and completed escrows are empty. */
  lemma OnlyLastHolds(k: Key, chain: seq<State>, n: nat, decimals: Option<nat>)
    requires ValidChain(k, chain, decimals) && n < |chain|
    ensures CountedBefore(chain, Balances, n) == 0.0
  {
    forall i | 0 <= i < n ensures Counted(chain, i, Balances) == 0.0 {
      EarlierHoldsNothing(k, chain, i, decimals);
    }
    NothingCounted(chain, Balances, n);
  }

  lemma EarlierHoldsNothing(k: Key, chain: seq<State>, i: nat, decimals: Option<nat>)
    requires ValidChain(k, chain, decimals) && i + 1 < |chain|
    ensures Counted(chain, i, Balances) == 0.0
  {
    ChainSound(k, chain, i, decimals);
    LedgersBalance(chain[i]);
    if IsLock(chain[i].transition.kind) {
      LockIsCompletedNext(k, chain, i, decimals);
    }
  }

  /** A user's claim and its open mutual lock are what the user has brought in on chain plus
      what the node has sent in and not locked. */
  lemma ClaimIdentity(k: Key, chain: seq<State>, decimals: Option<nat>)
    requires ValidChain(k, chain, decimals)
    ensures Claim(Last(k, chain)) == Total(chain, UserFlow) + Excess(chain)
  {
    if chain != [] {
      forall i | 0 <= i < |chain| ensures Sound(chain[i]) {
        ChainSound(k, chain, i, decimals);
      }
      var n := |chain| - 1;
      FlowsBalance(chain, |chain|);
      OnlyLastHolds(k, chain, n, decimals);
      LedgersBalance(chain[n]);
    }
  }

  /** Every state moves its user's claim by exactly what it brings in or takes out, on chain
      and within the node. */
  lemma ClaimStep(k: Key, chain: seq<State>, s: State, decimals: Option<nat>)
    requires ValidChain(k, chain + [s], decimals)
    ensures Claim(s) == Claim(Last(k, chain)) + Inflow(s) + Gain(s)
  {
    assert (chain + [s])[..|chain|] == chain;
    ClaimIdentity(k, chain, decimals);
    ClaimIdentity(k, chain + [s], decimals);
    ExcessStep(k, chain, s, decimals);
    InflowStep(k, chain, s, decimals);
  }
}
