/** The worker that submits a chain's scheduled actions. */
module Worker {
  import opened Channels

  const BATCH := 20
  const MAX_RETRIES := 5

  datatype ActionKind = CheckpointAction | OtherAction(code: nat)

  datatype ActionStatus = Pending | Completed | Failed

  datatype Action = Action(kind: ActionKind, state: Id, chain: ChainId, status: ActionStatus, retries: nat)

  /** Whether processing an action submits it to the chain. */
  predicate Submits(a: Action, known: set<Id>) {
    a.state in known && a.kind == CheckpointAction
  }

  predicate Succeeds(a: Action, known: set<Id>, client: Action -> bool) {
    Submits(a, known) && client(a)
  }

  /** An action that fails is retried later, until it has been retried often enough. */
  function Retried(a: Action): Action {
    if a.retries >= MAX_RETRIES then a.(status := Failed) else a.(retries := a.retries + 1)
  }

  function Processed(a: Action, known: set<Id>, client: Action -> bool): Action {
    if a.state !in known then a.(status := Failed)
    else if Succeeds(a, known, client) then a.(status := Completed)
    else Retried(a)
  }

  /** The pending actions of a chain, oldest first. */
  function PendingOn(actions: seq<Action>, chain: ChainId): (r: seq<nat>)
    ensures forall i :: 0 <= i < |r| ==> r[i] < |actions|
  {
    if actions == [] then []
    else
      var n := |actions| - 1;
      PendingOn(actions[..n], chain) + if actions[n].status == Pending && actions[n].chain == chain then [n] else []
  }

  function Take(s: seq<nat>, n: nat): seq<nat> {
    if |s| <= n then s else s[..n]
  }

  lemma {:induction false} PendingAre(actions: seq<Action>, chain: ChainId, i: nat)
    ensures i in PendingOn(actions, chain) <==>
      i < |actions| && actions[i].status == Pending && actions[i].chain == chain
  {
    if actions != [] {
      PendingAre(actions[..|actions| - 1], chain, i);
    }
  }

  lemma {:induction false} PendingSorted(actions: seq<Action>, chain: ChainId)
    ensures forall i, j :: 0 <= i < j < |PendingOn(actions, chain)| ==>
      PendingOn(actions, chain)[i] < PendingOn(actions, chain)[j]
  {
    if actions != [] {
      PendingSorted(actions[..|actions| - 1], chain);
    }
  }

  /** The actions after a batch: each of the batch is processed, the others stay as they are. */
  function AfterBatch(actions: seq<Action>, batch: seq<nat>, known: set<Id>, client: Action -> bool): seq<Action> {
    seq(|actions|, i requires 0 <= i < |actions| =>
      if i in batch then Processed(actions[i], known, client) else actions[i])
  }

  /** One more action of a batch is processed as it was found. */
  lemma AfterMore(actions: seq<Action>, batch: seq<nat>, n: nat, known: set<Id>, client: Action -> bool)
    requires n < |batch| && batch[n] < |actions|
    requires forall a, b :: 0 <= a < b < |batch| ==> batch[a] < batch[b]
    ensures var i, before := batch[n], AfterBatch(actions, batch[..n], known, client);
      && before[i] == actions[i]
      && AfterBatch(actions, batch[..n + 1], known, client) == before[i := Processed(actions[i], known, client)]
      && (forall j :: j in batch[..n + 1] <==> j in batch[..n] || j == i)
  {
    assert batch[..n + 1] == batch[..n] + [batch[n]];
    assert batch[n] !in batch[..n];
  }

  lemma BatchIs(actions: seq<Action>, chain: ChainId)
    ensures var batch := Take(PendingOn(actions, chain), BATCH);
      && (forall i :: i in batch ==> i < |actions| && actions[i].status == Pending && actions[i].chain == chain)
      && (forall a, b :: 0 <= a < b < |batch| ==> batch[a] < batch[b])
  {
    PendingSorted(actions, chain);
    forall i | i in Take(PendingOn(actions, chain), BATCH)
      ensures i < |actions| && actions[i].status == Pending && actions[i].chain == chain
    {
      PendingAre(actions, chain, i);
    }
  }

  // ---------- What a batch leaves pending ----------

  lemma {:induction false} PendingPrefix(actions: seq<Action>, chain: ChainId, n: nat)
    requires n <= |actions|
    ensures PendingOn(actions[..n], chain) <= PendingOn(actions, chain)
  {
    if n < |actions| {
      PendingPrefix(actions[..|actions| - 1], chain, n);
      assert actions[..|actions| - 1][..n] == actions[..n];
    } else {
      assert actions[..n] == actions;
    }
  }

  function Drop(s: seq<nat>, n: nat): seq<nat> {
    if |s| <= n then [] else s[n..]
  }

  /** The n-th action is in the batch exactly if it is pending and few enough older ones are. */
  lemma InBatch(actions: seq<Action>, chain: ChainId, n: nat)
    requires n < |actions|
    ensures var p := PendingOn(actions[..n], chain);
      && (n in Take(PendingOn(actions, chain), BATCH) <==>
        actions[n].status == Pending && actions[n].chain == chain && |p| < BATCH)
      && PendingOn(actions[..n + 1], chain)
         == p + if actions[n].status == Pending && actions[n].chain == chain then [n] else []
  {
    var p, whole := PendingOn(actions[..n], chain), PendingOn(actions, chain);
    assert actions[..n + 1][..n] == actions[..n];
    PendingPrefix(actions, chain, n + 1);
    PendingSorted(actions, chain);
    PendingAre(actions, chain, n);
    if actions[n].status == Pending && actions[n].chain == chain {
      assert whole[|p|] == n by {
        assert (p + [n])[|p|] == n && (p + [n]) <= whole;
      }
      if n in Take(whole, BATCH) {
        var j :| 0 <= j < |whole| && j < BATCH && whole[j] == n;
        assert j == |p|;
      }
    }
  }

  /** If the whole batch succeeds, exactly the rest of the queue is still pending, in order. */
  lemma {:induction false} RestPending(actions: seq<Action>, chain: ChainId, known: set<Id>, client: Action -> bool,
                                       n: nat)
    requires n <= |actions|
    requires forall i :: i in Take(PendingOn(actions, chain), BATCH) ==>
      i < |actions| && Succeeds(actions[i], known, client)
    ensures PendingOn(AfterBatch(actions, Take(PendingOn(actions, chain), BATCH), known, client)[..n], chain)
         == Drop(PendingOn(actions[..n], chain), BATCH)
  {
    if n > 0 {
      RestPending(actions, chain, known, client, n - 1);
      var after := AfterBatch(actions, Take(PendingOn(actions, chain), BATCH), known, client);
      assert after[..n][..n - 1] == after[..n - 1];
      InBatch(actions, chain, n - 1);
    }
  }

  /** So every batch that succeeds shortens the queue by its size. */
  lemma QueueShrinks(actions: seq<Action>, chain: ChainId, known: set<Id>, client: Action -> bool)
    requires forall i :: i in Take(PendingOn(actions, chain), BATCH) ==>
      i < |actions| && Succeeds(actions[i], known, client)
    ensures PendingOn(AfterBatch(actions, Take(PendingOn(actions, chain), BATCH), known, client), chain)
         == Drop(PendingOn(actions, chain), BATCH)
  {
    var after := AfterBatch(actions, Take(PendingOn(actions, chain), BATCH), known, client);
    RestPending(actions, chain, known, client, |actions|);
    assert after[..|actions|] == after && actions[..|actions|] == actions;
  }

  /** The submissions that an action has left while it is pending. */
  function Left(a: Action, chain: ChainId): nat {
    if a.status == Pending && a.chain == chain && a.retries <= MAX_RETRIES then MAX_RETRIES + 1 - a.retries else 0
  }

  ghost function Budget(actions: seq<Action>, chain: ChainId): nat {
    if actions == [] then 0 else Budget(actions[..|actions| - 1], chain) + Left(actions[|actions| - 1], chain)
  }

  /** Processing uses up a submission, whether it succeeds or fails. */
  lemma ProcessingUses(a: Action, chain: ChainId, known: set<Id>, client: Action -> bool)
    requires a.status == Pending && a.chain == chain && a.retries <= MAX_RETRIES
    ensures Left(Processed(a, known, client), chain) + 1 <= Left(a, chain)
  {}

  ghost predicate RetriesBounded(actions: seq<Action>) {
    forall i :: 0 <= i < |actions| && actions[i].status == Pending ==> actions[i].retries <= MAX_RETRIES
  }

  /** A batch uses up one submission for each of its actions. */
  lemma {:induction false} BudgetDrops(actions: seq<Action>, chain: ChainId, known: set<Id>, client: Action -> bool,
                                       n: nat)
    requires n <= |actions| && RetriesBounded(actions)
    ensures var batch := Take(PendingOn(actions, chain), BATCH);
      Budget(AfterBatch(actions, batch, known, client)[..n], chain) + |Take(PendingOn(actions[..n], chain), BATCH)|
      <= Budget(actions[..n], chain)
  {
    if n > 0 {
      BudgetDrops(actions, chain, known, client, n - 1);
      var batch := Take(PendingOn(actions, chain), BATCH);
      var after, a := AfterBatch(actions, batch, known, client), actions[n - 1];
      BudgetMore(after, chain, n - 1);
      BudgetMore(actions, chain, n - 1);
      TakenMore(actions, chain, n - 1);
      if n - 1 in batch {
        ProcessingUses(a, chain, known, client);
      }
    }
  }

  lemma TakenMore(actions: seq<Action>, chain: ChainId, n: nat)
    requires n < |actions|
    ensures var batch := Take(PendingOn(actions, chain), BATCH);
      |Take(PendingOn(actions[..n + 1], chain), BATCH)|
      == |Take(PendingOn(actions[..n], chain), BATCH)| + if n in batch then 1 else 0
    ensures n in Take(PendingOn(actions, chain), BATCH) ==> actions[n].status == Pending && actions[n].chain == chain
  {
    InBatch(actions, chain, n);
  }

  lemma BudgetMore(actions: seq<Action>, chain: ChainId, n: nat)
    requires n < |actions|
    ensures Budget(actions[..n + 1], chain) == Budget(actions[..n], chain) + Left(actions[n], chain)
  {
    assert actions[..n + 1][..n] == actions[..n];
  }

  /** A succession of batches, without new actions; the client answers differently every time. */
  ghost predicate Batches(run: seq<seq<Action>>, chain: ChainId, known: set<Id>, client: (nat, Action) -> bool) {
    && run != []
    && RetriesBounded(run[0])
    && forall k: nat :: k < |run| - 1 ==>
         run[k + 1] == AfterBatch(run[k], Take(PendingOn(run[k], chain), BATCH), known, a => client(k, a))
  }

  lemma {:induction false} BatchesUseBudget(run: seq<seq<Action>>, chain: ChainId, known: set<Id>,
                                            client: (nat, Action) -> bool, k: nat)
    requires Batches(run, chain, known, client) && k < |run|
    ensures RetriesBounded(run[k])
    ensures PendingOn(run[k], chain) != [] ==> Budget(run[k], chain) + k <= Budget(run[0], chain)
    ensures Budget(run[k], chain) <= Budget(run[0], chain)
  {
    if k > 0 {
      BatchesUseBudget(run, chain, known, client, k - 1);
      var before := run[k - 1];
      assert run[(k - 1) + 1]
        == AfterBatch(before, Take(PendingOn(before, chain), BATCH), known, a => client(k - 1, a));
      BudgetDrops(before, chain, known, a => client(k - 1, a), |before|);
      assert before[..|before|] == before && run[k][..|run[k]|] == run[k];
      if PendingOn(before, chain) == [] {
        assert run[k] == before;
      }
    }
  }

  lemma {:induction false} PendingHasBudget(actions: seq<Action>, chain: ChainId)
    requires RetriesBounded(actions)
    ensures |PendingOn(actions, chain)| <= Budget(actions, chain) <= (MAX_RETRIES + 1) * |PendingOn(actions, chain)|
  {
    if actions != [] {
      PendingHasBudget(actions[..|actions| - 1], chain);
    }
  }

  /** After at most six batches for every action that was pending, none is. */
  lemma AllSettled(run: seq<seq<Action>>, chain: ChainId, known: set<Id>, client: (nat, Action) -> bool, k: nat)
    requires Batches(run, chain, known, client) && k < |run|
    requires k >= 6 * |PendingOn(run[0], chain)|
    ensures PendingOn(run[k], chain) == []
  {
    BatchesUseBudget(run, chain, known, client, k);
    PendingHasBudget(run[k], chain);
    PendingHasBudget(run[0], chain);
  }

  /** The k-th batch processes action i. */
  ghost predicate InRound(run: seq<seq<Action>>, chain: ChainId, k: nat, i: nat)
    requires k < |run|
  {
    i < |run[k]| && i in Take(PendingOn(run[k], chain), BATCH)
  }

  /** And its submission succeeds. */
  ghost predicate SucceedsIn(run: seq<seq<Action>>, chain: ChainId, known: set<Id>, client: (nat, Action) -> bool,
                             k: nat, i: nat)
    requires k < |run|
  {
    InRound(run, chain, k, i) && run[k][i].state in known && run[k][i].kind == CheckpointAction && client(k, run[k][i])
  }

  lemma RoundIs(run: seq<seq<Action>>, chain: ChainId, known: set<Id>, client: (nat, Action) -> bool, k: nat, i: nat)
    requires Batches(run, chain, known, client) && k + 1 < |run| && i < |run[k]|
    ensures |run[k + 1]| == |run[k]|
    ensures run[k + 1][i]
         == if InRound(run, chain, k, i) then Processed(run[k][i], known, a => client(k, a)) else run[k][i]
    ensures InRound(run, chain, k, i) ==> run[k][i].status == Pending && run[k][i].chain == chain
  {
    BatchIs(run[k], chain);
    assert run[k + 1] == AfterBatch(run[k], Take(PendingOn(run[k], chain), BATCH), known, a => client(k, a));
  }

  lemma {:induction false} RoundsKeep(run: seq<seq<Action>>, chain: ChainId, known: set<Id>,
                                      client: (nat, Action) -> bool, k: nat, i: nat)
    requires Batches(run, chain, known, client) && k < |run| && i < |run[0]|
    ensures |run[k]| == |run[0]| && run[k][i].kind == run[0][i].kind && run[k][i].state == run[0][i].state
  {
    if k > 0 {
      RoundsKeep(run, chain, known, client, k - 1, i);
      RoundIs(run, chain, known, client, k - 1, i);
    }
  }

  /** An action that was pending is completed exactly if some submission of it has succeeded. */
  lemma {:induction false} CompletedIff(run: seq<seq<Action>>, chain: ChainId, known: set<Id>,
                                        client: (nat, Action) -> bool, k: nat, i: nat)
    requires Batches(run, chain, known, client) && k < |run| && i < |run[0]| && run[0][i].status == Pending
    ensures |run[k]| == |run[0]|
    ensures run[k][i].status == Completed <==> exists j: nat :: j < k && SucceedsIn(run, chain, known, client, j, i)
  {
    if k > 0 {
      CompletedIff(run, chain, known, client, k - 1, i);
      RoundIs(run, chain, known, client, k - 1, i);
      assert run[k][i].status == Completed <==>
        run[k - 1][i].status == Completed || SucceedsIn(run, chain, known, client, k - 1, i);
    }
  }

  /** How many of the first k batches process action i. */
  ghost function Tries(run: seq<seq<Action>>, chain: ChainId, k: nat, i: nat): nat
    requires k <= |run|
  {
    if k == 0 then 0 else Tries(run, chain, k - 1, i) + if InRound(run, chain, k - 1, i) then 1 else 0
  }

  /** As long as none succeeds, an action of a stored state is tried six times, and fails then. */
  lemma {:induction false} RetryPolicy(run: seq<seq<Action>>, chain: ChainId, known: set<Id>,
                                       client: (nat, Action) -> bool, k: nat, i: nat)
    requires Batches(run, chain, known, client) && k < |run| && i < |run[0]|
    requires run[0][i].status == Pending && run[0][i].retries == 0 && run[0][i].state in known
    requires forall j: nat :: j < k ==> !SucceedsIn(run, chain, known, client, j, i)
    ensures |run[k]| == |run[0]| && Tries(run, chain, k, i) <= 6
    ensures run[k][i].status == if Tries(run, chain, k, i) == 6 then Failed else Pending
    ensures run[k][i].retries == if Tries(run, chain, k, i) == 6 then 5 else Tries(run, chain, k, i)
  {
    if k > 0 {
      RetryPolicy(run, chain, known, client, k - 1, i);
      RoundsKeep(run, chain, known, client, k - 1, i);
      RoundIs(run, chain, known, client, k - 1, i);
      assert !SucceedsIn(run, chain, known, client, k - 1, i);
    }
  }

  /** An action whose state is not stored fails when it is first tried. */
  lemma UnknownFails(run: seq<seq<Action>>, chain: ChainId, known: set<Id>, client: (nat, Action) -> bool, k: nat,
                     i: nat)
    requires Batches(run, chain, known, client) && k + 1 < |run| && i < |run[k]| && InRound(run, chain, k, i)
    requires run[k][i].state !in known
    ensures i < |run[k + 1]| && run[k + 1][i].status == Failed
  {
    RoundIs(run, chain, known, client, k, i);
  }

  /** How often each action may be submitted: never more than once plus the retries. */
  ghost predicate Bounded(actions: seq<Action>, attempts: seq<nat>) {
    && |attempts| == |actions|
    && forall i :: 0 <= i < |actions| ==>
         attempts[i] <= MAX_RETRIES + 1
           && (actions[i].status == Pending ==> attempts[i] <= actions[i].retries <= MAX_RETRIES)
  }

  /** How often each action has been submitted after a batch: once more if the batch submits it. */
  ghost function AttemptsAfter(attempts: seq<nat>, actions: seq<Action>, batch: seq<nat>, known: set<Id>): seq<nat>
    requires |attempts| == |actions|
  {
    seq(|actions|, i requires 0 <= i < |actions| =>
      attempts[i] + if i in batch && Submits(actions[i], known) then 1 else 0)
  }

  lemma AttemptsMore(attempts: seq<nat>, actions: seq<Action>, batch: seq<nat>, n: nat, known: set<Id>)
    requires |attempts| == |actions| && n < |batch| && batch[n] < |actions|
    requires forall a, b :: 0 <= a < b < |batch| ==> batch[a] < batch[b]
    ensures var i, before := batch[n], AttemptsAfter(attempts, actions, batch[..n], known);
      AttemptsAfter(attempts, actions, batch[..n + 1], known)
      == before[i := before[i] + if Submits(actions[i], known) then 1 else 0]
  {
    assert batch[..n + 1] == batch[..n] + [batch[n]];
    assert batch[n] !in batch[..n];
  }

  /** In a tick each action is submitted at most once more; those still pending have not been. */
  ghost predicate TickUses(was: seq<nat>, now: seq<nat>, actions: seq<Action>, chain: ChainId) {
    && |was| == |now| == |actions| && (forall i :: 0 <= i < |was| ==> was[i] <= now[i] <= was[i] + 1)
    && forall i :: 0 <= i < |actions| && actions[i].status == Pending && actions[i].chain == chain ==> now[i] == was[i]
  }

  /** A batch keeps to that: it takes pending actions only, and if it succeeds none stays pending. */
  lemma BatchTicks(was: seq<nat>, now: seq<nat>, actions: seq<Action>, chain: ChainId, known: set<Id>,
                   client: Action -> bool)
    requires TickUses(was, now, actions, chain)
    ensures var batch := Take(PendingOn(actions, chain), BATCH);
      var after, later := AfterBatch(actions, batch, known, client), AttemptsAfter(now, actions, batch, known);
      && |later| == |was| && (forall i :: 0 <= i < |was| ==> was[i] <= later[i] <= was[i] + 1)
      && ((forall i :: i in batch ==> i < |actions| && Succeeds(actions[i], known, client)) ==>
        TickUses(was, later, after, chain))
  {
    BatchIs(actions, chain);
  }

  lemma NoneProcessed(actions: seq<Action>, attempts: seq<nat>, known: set<Id>, client: Action -> bool)
    requires |attempts| == |actions|
    ensures AfterBatch(actions, [], known, client) == actions && AttemptsAfter(attempts, actions, [], known) == attempts
  {}

  ghost predicate AllSucceed(actions: seq<Action>, batch: seq<nat>, known: set<Id>, client: Action -> bool) {
    forall i :: i in batch ==> i < |actions| && Succeeds(actions[i], known, client)
  }

  lemma AllMore(actions: seq<Action>, batch: seq<nat>, n: nat, known: set<Id>, client: Action -> bool)
    requires n < |batch|
    ensures AllSucceed(actions, batch[..n + 1], known, client) <==>
      AllSucceed(actions, batch[..n], known, client) && batch[n] < |actions|
        && Succeeds(actions[batch[n]], known, client)
  {
    assert batch[..n + 1] == batch[..n] + [batch[n]];
  }

  /** A batch of pending actions of the chain, in order. */
  ghost predicate Queued(actions: seq<Action>, batch: seq<nat>, chain: ChainId) {
    && (forall i :: i in batch ==> i < |actions| && actions[i].status == Pending && actions[i].chain == chain)
    && (forall a, b :: 0 <= a < b < |batch| ==> batch[a] < batch[b])
  }

  class BlockchainWorker {
    const chain: ChainId
    var actions: seq<Action>
    ghost var attempts: seq<nat>

    ghost predicate Valid()
      reads this
    {
      Bounded(actions, attempts)
    }

    constructor (chain: ChainId)
      ensures Valid() && actions == [] && this.chain == chain
    {
      this.chain, actions, attempts := chain, [], [];
    }

    method Schedule(kind: ActionKind, state: Id, chain: ChainId)
      requires Valid()
      modifies this
      ensures Valid() && actions == old(actions) + [Action(kind, state, chain, Pending, 0)]
      ensures attempts == old(attempts) + [0]
    {
      actions := actions + [Action(kind, state, chain, Pending, 0)];
      attempts := attempts + [0];
    }

    /** The oldest pending actions of the chain, up to a limit. */
    method GetActions(limit: nat) returns (batch: seq<nat>)
      ensures batch == Take(PendingOn(actions, chain), limit)
    {
      batch := [];
      for i := 0 to |actions|
        invariant batch == Take(PendingOn(actions[..i], chain), limit)
      {
        assert actions[..i + 1][..i] == actions[..i];
        if actions[i].status == Pending && actions[i].chain == chain && |batch| < limit {
          batch := batch + [i];
        }
      }
      assert actions[..|actions|] == actions;
    }

    method HandleActionError(i: nat)
      requires i < |actions|
      modifies this`actions
      ensures |actions| == |old(actions)|
      ensures actions == old(actions)[i := Retried(old(actions)[i])]
    {
      var a := actions[i];
      if a.retries >= MAX_RETRIES {
        actions := actions[i := a.(status := Failed)];
      } else {
        actions := actions[i := a.(retries := a.retries + 1)];
      }
    }

    method ProcessAction(i: nat, known: set<Id>, client: Action -> bool) returns (ok: bool)
      requires Valid() && i < |actions| && actions[i].status == Pending
      modifies this
      ensures Valid() && actions == old(actions)[i := Processed(old(actions)[i], known, client)]
      ensures attempts == old(attempts)[i := old(attempts)[i] + if Submits(old(actions)[i], known) then 1 else 0]
      ensures ok <==> Succeeds(old(actions)[i], known, client)
    {
      var a := actions[i];
      if a.state !in known {
        actions := actions[i := a.(status := Failed)];
        return false;
      }
      if a.kind != CheckpointAction {
        HandleActionError(i);
        return false;
      }
      attempts := attempts[i := attempts[i] + 1];
      if !client(a) {
        HandleActionError(i);
        return false;
      }
      actions := actions[i := a.(status := Completed)];
      return true;
    }

    /** Processes the n-th action of a batch. */
    method ProcessNext(batch: seq<nat>, n: nat, known: set<Id>, client: Action -> bool, ghost before: seq<Action>,
                       ghost tried: seq<nat>)
      returns (ok: bool)
      requires Valid() && n < |batch| && |tried| == |before| && Queued(before, batch, chain) && batch[n] < |before|
      requires actions == AfterBatch(before, batch[..n], known, client)
      requires attempts == AttemptsAfter(tried, before, batch[..n], known)
      modifies this
      ensures Valid() && actions == AfterBatch(before, batch[..n + 1], known, client)
      ensures attempts == AttemptsAfter(tried, before, batch[..n + 1], known)
      ensures ok <==> Succeeds(before[batch[n]], known, client)
    {
      assert before[batch[n]].status == Pending by {
        assert batch[n] in batch;
      }
      AfterMore(before, batch, n, known, client);
      AttemptsMore(tried, before, batch, n, known);
      ok := ProcessAction(batch[n], known, client);
    }

    /** Processes a batch, one action after the other; true if all succeeded. */
    method ProcessBatch(batch: seq<nat>, known: set<Id>, client: Action -> bool) returns (ok: bool)
      requires Valid() && Queued(actions, batch, chain)
      modifies this
      ensures Valid() && actions == AfterBatch(old(actions), batch, known, client)
      ensures |old(attempts)| == |old(actions)| && attempts == AttemptsAfter(old(attempts), old(actions), batch, known)
      ensures ok <==> AllSucceed(old(actions), batch, known, client)
    {
      ghost var before, tried := actions, attempts;
      NoneProcessed(before, tried, known, client);
      ok := true;
      for n := 0 to |batch|
        invariant Valid() && actions == AfterBatch(before, batch[..n], known, client)
        invariant attempts == AttemptsAfter(tried, before, batch[..n], known)
        invariant ok <==> AllSucceed(before, batch[..n], known, client)
      {
        AllMore(before, batch, n, known, client);
        assert batch[n] in batch;
        var done := ProcessNext(batch, n, known, client, before, tried);
        if !done {
          ok := false;
        }
      }
      assert batch[..|batch|] == batch;
    }

    /** Processes the oldest pending actions; true if there were any, and all succeeded. */
    method ProcessActions(known: set<Id>, client: Action -> bool) returns (ok: bool)
      requires Valid()
      modifies this
      ensures Valid()
      ensures actions == AfterBatch(old(actions), Take(PendingOn(old(actions), chain), BATCH), known, client)
      ensures |old(attempts)| == |old(actions)|
      ensures attempts == AttemptsAfter(old(attempts), old(actions), Take(PendingOn(old(actions), chain), BATCH), known)
      ensures ok <==> PendingOn(old(actions), chain) != []
                      && forall i :: i in Take(PendingOn(old(actions), chain), BATCH) ==>
                        Succeeds(old(actions)[i], known, client)
    {
      var batch := GetActions(BATCH);
      BatchIs(actions, chain);
      NoneProcessed(actions, attempts, known, client);
      if batch == [] { return false; }
      ok := ProcessBatch(batch, known, client);
    }

    /** A tick: batch after batch, as long as everything succeeds. The client may answer
        differently in every round. It ends after no more rounds than actions were pending, and
        submits each action at most once more. */
    method Drain(known: set<Id>, client: (nat, Action) -> bool) returns (rounds: nat)
      requires Valid()
      modifies this
      ensures Valid() && rounds <= |PendingOn(old(actions), chain)|
      ensures |attempts| == |old(attempts)|
      ensures forall i :: 0 <= i < |attempts| ==> old(attempts)[i] <= attempts[i] <= old(attempts)[i] + 1
    {
      rounds := 0;
      var more := true;
      while more
        invariant Valid() && (more ==> rounds + |PendingOn(actions, chain)| <= |PendingOn(old(actions), chain)|)
        invariant rounds <= |PendingOn(old(actions), chain)| && |attempts| == |old(attempts)|
        invariant forall i :: 0 <= i < |attempts| ==> old(attempts)[i] <= attempts[i] <= old(attempts)[i] + 1
        invariant more ==> TickUses(old(attempts), attempts, actions, chain)
        decreases if more then 1 else 0, |PendingOn(actions, chain)|
      {
        ghost var before := actions;
        BatchTicks(old(attempts), attempts, before, chain, known, a => client(rounds, a));
        more := ProcessActions(known, a => client(rounds, a));
        if more {
          QueueShrinks(before, chain, known, a => client(rounds, a));
          rounds := rounds + 1;
        }
      }
    }
  }
}
