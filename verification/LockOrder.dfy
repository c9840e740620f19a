/** Concurrent transactions that lock user states: exactly when they can wait for each other in a
    circle, and that those that lock in order never do. */
module LockOrder {
  import opened Channels
  import opened Chains
  import opened NodeModel
  import opened Ordering
  import opened UserLocks

  /** A transaction in flight: what it locks, in this order, how many of these locks it holds,
      and whether it has ended, which releases all of them. */
  datatype Txn = Txn(wants: seq<Key>, held: nat, ended: bool)

  predicate Distinct(keys: seq<Key>) {
    forall i, j :: 0 <= i < j < |keys| ==> keys[i] != keys[j]
  }

  predicate Holds(t: Txn, k: Key) {
    !t.ended && t.held <= |t.wants| && k in t.wants[..t.held]
  }

  /** Still has a lock to take. */
  predicate Wanting(t: Txn) {
    !t.ended && t.held < |t.wants|
  }

  /** No two transactions hold the same lock. */
  ghost predicate Exclusive(txns: seq<Txn>) {
    && (forall i :: 0 <= i < |txns| ==> txns[i].held <= |txns[i].wants|)
    && forall i, j, k :: 0 <= i < |txns| && 0 <= j < |txns| && Holds(txns[i], k) && Holds(txns[j], k) ==> i == j
  }

  /** Transactions that lock in order, no two of which hold the same lock. */
  ghost predicate Good(txns: seq<Txn>) {
    Exclusive(txns) && forall i :: 0 <= i < |txns| ==> KeysIncrease(txns[i].wants)
  }

  /** i waits for a lock that j holds. */
  predicate WaitsFor(txns: seq<Txn>, i: nat, j: nat)
    requires i < |txns| && j < |txns|
  {
    Wanting(txns[i]) && Holds(txns[j], txns[i].wants[txns[i].held])
  }

  /** i takes its next lock, which nobody holds. */
  ghost predicate Acquires(txns: seq<Txn>, i: nat, txns': seq<Txn>) {
    && i < |txns| && Wanting(txns[i])
    && (forall j :: 0 <= j < |txns| ==> !Holds(txns[j], txns[i].wants[txns[i].held]))
    && txns' == txns[i := txns[i].(held := txns[i].held + 1)]
  }

  /** i ends: it commits with all its locks, or rolls back with some of them. */
  ghost predicate Ends(txns: seq<Txn>, i: nat, txns': seq<Txn>) {
    i < |txns| && !txns[i].ended && txns' == txns[i := txns[i].(ended := true)]
  }

  ghost predicate LockStep(txns: seq<Txn>, txns': seq<Txn>) {
    exists i :: 0 <= i < |txns| && (Acquires(txns, i, txns') || Ends(txns, i, txns'))
  }

  lemma StepKeepsExclusive(txns: seq<Txn>, txns': seq<Txn>)
    requires Exclusive(txns) && LockStep(txns, txns')
    ensures Exclusive(txns') && SameWants(txns, txns')
  {
    var i :| 0 <= i < |txns| && (Acquires(txns, i, txns') || Ends(txns, i, txns'));
    forall a, k | 0 <= a < |txns'| && Holds(txns'[a], k)
      ensures Holds(txns[a], k) || (a == i && Acquires(txns, i, txns') && k == txns[i].wants[txns[i].held])
    {
      if a == i && Acquires(txns, i, txns') {
        var t := txns[i];
        assert t.wants[..t.held + 1] == t.wants[..t.held] + [t.wants[t.held]];
      }
    }
  }

  /** The same transactions, wherever they are. */
  predicate SameWants(txns: seq<Txn>, txns': seq<Txn>) {
    |txns'| == |txns| && forall i :: 0 <= i < |txns| ==> txns'[i].wants == txns[i].wants
  }

  /** Whoever waits wants a smaller lock than whoever it waits for. */
  lemma WaitsUp(txns: seq<Txn>, i: nat, j: nat)
    requires Good(txns) && i < |txns| && j < |txns| && WaitsFor(txns, i, j) && Wanting(txns[j])
    ensures KeyLess(txns[i].wants[txns[i].held], txns[j].wants[txns[j].held])
  {
    var t, k := txns[j], txns[i].wants[txns[i].held];
    var a :| 0 <= a < t.held && t.wants[..t.held][a] == k;
    assert t.wants[a] == k;
  }

  /** Each transaction of a circular wait waits for the next one, the last for the first. */
  ghost predicate CircularWait(txns: seq<Txn>, cycle: seq<nat>) {
    && cycle != []
    && (forall i :: 0 <= i < |cycle| ==> cycle[i] < |txns|)
    && forall i :: 0 <= i < |cycle| ==> WaitsFor(txns, cycle[i], cycle[if i + 1 < |cycle| then i + 1 else 0])
  }

  lemma {:induction false} WantsRise(txns: seq<Txn>, cycle: seq<nat>, i: nat)
    requires Good(txns) && CircularWait(txns, cycle) && 0 < i < |cycle|
    ensures Wanting(txns[cycle[0]]) && Wanting(txns[cycle[i]])
    ensures KeyLess(txns[cycle[0]].wants[txns[cycle[0]].held], txns[cycle[i]].wants[txns[cycle[i]].held])
  {
    assert WaitsFor(txns, cycle[i - 1], cycle[i]);
    assert WaitsFor(txns, cycle[i], cycle[if i + 1 < |cycle| then i + 1 else 0]);
    WaitsUp(txns, cycle[i - 1], cycle[i]);
    if i > 1 {
      WantsRise(txns, cycle, i - 1);
      KeyLessTransitive(txns[cycle[0]].wants[txns[cycle[0]].held], txns[cycle[i - 1]].wants[txns[cycle[i - 1]].held],
                        txns[cycle[i]].wants[txns[cycle[i]].held]);
    } else {
      assert WaitsFor(txns, cycle[0], cycle[1]);
    }
  }

  /** Transactions that lock in order never wait in a circle. */
  lemma NoCircularWait(txns: seq<Txn>, cycle: seq<nat>)
    requires Good(txns)
    ensures !CircularWait(txns, cycle)
  {
    if CircularWait(txns, cycle) {
      var last := |cycle| - 1;
      var first, end := txns[cycle[0]], txns[cycle[last]];
      assert WaitsFor(txns, cycle[last], cycle[0]);
      assert Wanting(first) by {
        assert WaitsFor(txns, cycle[0], cycle[if 1 < |cycle| then 1 else 0]);
      }
      WaitsUp(txns, cycle[last], cycle[0]);
      if last > 0 {
        WantsRise(txns, cycle, last);
        KeyLessTransitive(first.wants[first.held], end.wants[end.held], first.wants[first.held]);
      }
      KeyLessIrreflexive(first.wants[first.held]);
    }
  }

  /** The transactions that want a greater lock than i does. */
  ghost function WantMore(txns: seq<Txn>, i: nat): set<nat>
    requires i < |txns| && Wanting(txns[i])
  {
    set j: nat | j < |txns| && Wanting(txns[j]) && KeyLess(txns[i].wants[txns[i].held], txns[j].wants[txns[j].held])
  }

  /** Can go on by itself: it holds all its locks, or nobody holds its next one. */
  ghost predicate CanGoOn(txns: seq<Txn>, i: nat) {
    i < |txns| && !txns[i].ended && forall j :: 0 <= j < |txns| ==> !WaitsFor(txns, i, j)
  }

  /** From any transaction that has not ended, the waits lead to one that can go on. */
  lemma {:induction false} SomeoneGoesOn(txns: seq<Txn>, i: nat) returns (j: nat)
    requires Good(txns) && i < |txns| && !txns[i].ended
    ensures CanGoOn(txns, j)
    decreases if Wanting(txns[i]) then |WantMore(txns, i)| + 1 else 0
  {
    if CanGoOn(txns, i) {
      return i;
    }
    var next: nat :| next < |txns| && WaitsFor(txns, i, next);
    if !Wanting(txns[next]) {
      j := SomeoneGoesOn(txns, next);
    } else {
      WaitsUp(txns, i, next);
      var a, b := txns[i].wants[txns[i].held], txns[next].wants[txns[next].held];
      forall u | u in WantMore(txns, next) ensures u in WantMore(txns, i) {
        KeyLessTransitive(a, b, txns[u].wants[txns[u].held]);
      }
      KeyLessIrreflexive(b);
      assert next in WantMore(txns, i) && next !in WantMore(txns, next);
      Smaller(WantMore(txns, next), WantMore(txns, i), next);
      j := SomeoneGoesOn(txns, next);
    }
  }

  lemma Smaller(a: set<nat>, b: set<nat>, x: nat)
    requires a <= b && x in b && x !in a
    ensures |a| < |b|
  {
    SetSize(a, b - {x});
  }

  lemma {:induction false} SetSize(a: set<nat>, b: set<nat>)
    requires a <= b
    ensures |a| <= |b|
    decreases a
  {
    if a != {} {
      var x :| x in a;
      SetSize(a - {x}, b - {x});
    }
  }

  // ---------- Interleavings ----------

  /** Steps that are left in the worst case. */
  ghost function Work(txns: seq<Txn>): nat {
    if txns == [] then 0 else Work(txns[..|txns| - 1]) + WorkOf(txns[|txns| - 1])
  }

  ghost function WorkOf(t: Txn): nat {
    if t.ended then 0 else if t.held <= |t.wants| then |t.wants| - t.held + 1 else 1
  }

  lemma {:induction false} WorkUpdate(txns: seq<Txn>, i: nat, t: Txn)
    requires i < |txns|
    ensures Work(txns[i := t]) == Work(txns) - WorkOf(txns[i]) + WorkOf(t)
    decreases |txns|
  {
    var n := |txns| - 1;
    if i < n {
      WorkUpdate(txns[..n], i, t);
      assert txns[i := t][..n] == txns[..n][i := t];
    } else {
      assert txns[i := t][..n] == txns[..n];
    }
  }

  lemma StepWorks(txns: seq<Txn>, txns': seq<Txn>)
    requires Exclusive(txns) && LockStep(txns, txns')
    ensures Work(txns') < Work(txns)
  {
    var i :| 0 <= i < |txns| && (Acquires(txns, i, txns') || Ends(txns, i, txns'));
    WorkUpdate(txns, i, txns'[i]);
  }

  /** Transactions that have not taken any lock yet. */
  ghost predicate Starting(txns: seq<Txn>) {
    forall i :: 0 <= i < |txns| ==> txns[i].held == 0 && !txns[i].ended && Distinct(txns[i].wants)
  }

  /** An interleaving of the steps of these transactions. */
  ghost predicate Interleaving(txns: seq<Txn>, run: seq<seq<Txn>>) {
    && run != [] && run[0] == txns && Starting(txns)
    && forall n :: 0 <= n < |run| - 1 ==> LockStep(run[n], run[n + 1])
  }

  lemma {:induction false} InterleavingExclusive(txns: seq<Txn>, run: seq<seq<Txn>>, n: nat)
    requires Interleaving(txns, run) && n < |run|
    ensures Exclusive(run[n]) && SameWants(txns, run[n])
  {
    if n > 0 {
      InterleavingExclusive(txns, run, n - 1);
      assert LockStep(run[n - 1], run[(n - 1) + 1]);
      StepKeepsExclusive(run[n - 1], run[n]);
    }
  }

  lemma {:induction false} InterleavingWorks(txns: seq<Txn>, run: seq<seq<Txn>>, n: nat)
    requires Interleaving(txns, run) && n < |run|
    ensures n + Work(run[n]) <= Work(txns)
  {
    if n > 0 {
      InterleavingWorks(txns, run, n - 1);
      InterleavingExclusive(txns, run, n - 1);
      assert LockStep(run[n - 1], run[(n - 1) + 1]);
      StepWorks(run[n - 1], run[n]);
    }
  }

  /** No interleaving of any number of transactions that lock in order waits in a circle; as
      long as one has not ended some transaction can go on; and it is over after a bounded
      number of steps. */
  lemma DeadlockFree(txns: seq<Txn>, run: seq<seq<Txn>>, n: nat, cycle: seq<nat>)
    requires Interleaving(txns, run) && n < |run|
    requires forall i :: 0 <= i < |txns| ==> KeysIncrease(txns[i].wants)
    ensures !CircularWait(run[n], cycle)
    ensures (exists i :: 0 <= i < |run[n]| && !run[n][i].ended) ==> exists j :: CanGoOn(run[n], j)
    ensures n <= Work(txns)
  {
    InterleavingExclusive(txns, run, n);
    InterleavingWorks(txns, run, n);
    NoCircularWait(run[n], cycle);
    if i: nat :| i < |run[n]| && !run[n][i].ended {
      var j := SomeoneGoesOn(run[n], i);
    }
  }

  // ---------- Exactly when transactions can wait in a circle ----------

  /** How far each transaction has got. */
  function At(txns: seq<Txn>, held: seq<nat>): seq<Txn>
    requires |held| == |txns|
  {
    seq(|txns|, i requires 0 <= i < |txns| => txns[i].(held := held[i]))
  }

  /** Each transaction may get as far as held without meeting another. */
  ghost predicate Apart(txns: seq<Txn>, held: seq<nat>) {
    && |held| == |txns| && (forall i :: 0 <= i < |txns| ==> held[i] <= |txns[i].wants|)
    && forall i, j, k ::
         (0 <= i < |txns| && 0 <= j < |txns| && k in txns[i].wants[..held[i]] && k in txns[j].wants[..held[j]]) ==>
           i == j
  }

  function After(cycle: seq<nat>, i: nat): nat
    requires i < |cycle|
  {
    cycle[if i + 1 < |cycle| then i + 1 else 0]
  }

  /** What a wants next, b has taken before. */
  ghost predicate Blocked(txns: seq<Txn>, held: seq<nat>, a: nat, b: nat)
    requires Apart(txns, held)
  {
    a < |txns| && b < |txns| && held[a] < |txns[a].wants| && txns[a].wants[held[a]] in txns[b].wants[..held[b]]
  }

  /** What each transaction of the cycle wants next, the one after it has taken before. */
  ghost predicate Crossing(txns: seq<Txn>, held: seq<nat>, cycle: seq<nat>) {
    && Apart(txns, held) && cycle != []
    && forall i :: 0 <= i < |cycle| ==> Blocked(txns, held, cycle[i], After(cycle, i))
  }

  ghost function Total(held: seq<nat>): nat {
    if held == [] then 0 else Total(held[..|held| - 1]) + held[|held| - 1]
  }

  lemma {:induction false} TotalLess(held: seq<nat>, i: nat)
    requires i < |held| && held[i] > 0
    ensures Total(held[i := held[i] - 1]) == Total(held) - 1
  {
    var n := |held| - 1;
    if i < n {
      TotalLess(held[..n], i);
      assert held[i := held[i] - 1][..n] == held[..n][i := held[i] - 1];
    } else {
      assert held[i := held[i] - 1][..n] == held[..n];
    }
  }

  /** As long as they do not meet, the transactions can get there, one lock at a time. */
  lemma {:induction false} GetThere(txns: seq<Txn>, held: seq<nat>) returns (run: seq<seq<Txn>>)
    requires Starting(txns) && Apart(txns, held)
    ensures Interleaving(txns, run) && run[|run| - 1] == At(txns, held)
    decreases Total(held)
  {
    if i: nat :| i < |held| && held[i] > 0 {
      var less := held[i := held[i] - 1];
      TotalLess(held, i);
      LessApart(txns, held, i);
      run := GetThere(txns, less);
      LastLock(txns, held, i);
      run := run + [At(txns, held)];
    } else {
      assert At(txns, held) == txns;
      run := [txns];
    }
  }

  lemma LessApart(txns: seq<Txn>, held: seq<nat>, i: nat)
    requires Apart(txns, held) && i < |held| && held[i] > 0
    ensures Apart(txns, held[i := held[i] - 1])
  {
    var less := held[i := held[i] - 1];
    forall j, k | 0 <= j < |txns| && k in txns[j].wants[..less[j]] ensures k in txns[j].wants[..held[j]] {
      var a :| 0 <= a < less[j] && txns[j].wants[..less[j]][a] == k;
      assert txns[j].wants[..held[j]][a] == k;
    }
  }

  lemma LastLock(txns: seq<Txn>, held: seq<nat>, i: nat)
    requires Starting(txns) && Apart(txns, held) && i < |held| && held[i] > 0
    ensures LockStep(At(txns, held[i := held[i] - 1]), At(txns, held))
  {
    var less := held[i := held[i] - 1];
    var was, wanted := At(txns, less), txns[i].wants[held[i] - 1];
    assert txns[i].wants[..held[i]][held[i] - 1] == wanted;
    forall j | 0 <= j < |was| ensures !Holds(was[j], wanted) {}
    assert Acquires(was, i, At(txns, held));
  }

  /** Where a circular wait is, its transactions cross. */
  lemma WaitCrosses(txns: seq<Txn>, now: seq<Txn>, cycle: seq<nat>) returns (held: seq<nat>)
    requires SameWants(txns, now) && Exclusive(now) && CircularWait(now, cycle)
    ensures Crossing(txns, held, cycle)
  {
    held := seq(|txns|, i requires 0 <= i < |txns| => if now[i].ended then 0 else now[i].held);
    forall i, k | 0 <= i < |txns| && k in txns[i].wants[..held[i]] ensures Holds(now[i], k) {}
    assert Apart(txns, held);
    forall i | 0 <= i < |cycle| ensures Blocked(txns, held, cycle[i], After(cycle, i)) {
      assert WaitsFor(now, cycle[i], cycle[if i + 1 < |cycle| then i + 1 else 0]);
    }
  }

  lemma CrossingWaits(txns: seq<Txn>, held: seq<nat>, cycle: seq<nat>)
    requires Starting(txns) && Crossing(txns, held, cycle)
    ensures CircularWait(At(txns, held), cycle)
  {
    forall i | 0 <= i < |cycle|
      ensures cycle[i] < |txns| && After(cycle, i) < |txns| && WaitsFor(At(txns, held), cycle[i], After(cycle, i))
    {
      assert Blocked(txns, held, cycle[i], After(cycle, i));
    }
  }

  /** This interleaving ends in this circular wait. */
  ghost predicate Deadlocks(txns: seq<Txn>, run: seq<seq<Txn>>, cycle: seq<nat>) {
    Interleaving(txns, run) && CircularWait(run[|run| - 1], cycle)
  }

  /** Some interleaving leads to a circular wait. */
  ghost predicate CanDeadlock(txns: seq<Txn>) {
    exists run, cycle :: Deadlocks(txns, run, cycle)
  }

  /** Any transactions can wait in a circle if and only if some of them cross: each of a cycle
      has, short of its next lock, taken the one that its predecessor wants, and until then none
      meets another. */
  lemma DeadlockIffCrossing(txns: seq<Txn>)
    requires Starting(txns)
    ensures CanDeadlock(txns) <==> exists held, cycle :: Crossing(txns, held, cycle)
  {
    if CanDeadlock(txns) {
      var run, cycle :| Deadlocks(txns, run, cycle);
      InterleavingExclusive(txns, run, |run| - 1);
      var held := WaitCrosses(txns, run[|run| - 1], cycle);
    }
    if held, cycle :| Crossing(txns, held, cycle) {
      var run := GetThere(txns, held);
      CrossingWaits(txns, held, cycle);
      assert Deadlocks(txns, run, cycle);
    }
  }

  // ---------- Transactions with at most two locks ----------

  /** The second lock of a is the first of b. */
  predicate Meets(txns: seq<Txn>, a: nat, b: nat) {
    && a < |txns| && b < |txns| && |txns[a].wants| == 2 && |txns[b].wants| == 2
    && txns[a].wants[1] == txns[b].wants[0]
  }

  /** The second lock of each transaction of the cycle is the first of the one after it. */
  ghost predicate Chained(txns: seq<Txn>, cycle: seq<nat>) {
    cycle != [] && forall i :: 0 <= i < |cycle| ==> Meets(txns, cycle[i], After(cycle, i))
  }

  /** The first locks of two transactions are the same. */
  predicate SameFirst(txns: seq<Txn>, a: nat, b: nat) {
    && a < |txns| && b < |txns| && |txns[a].wants| == 2 && |txns[b].wants| == 2
    && txns[a].wants[0] == txns[b].wants[0]
  }

  ghost predicate FirstsDiffer(txns: seq<Txn>, cycle: seq<nat>) {
    forall i, j :: 0 <= i < j < |cycle| ==> !SameFirst(txns, cycle[i], cycle[j])
  }

  lemma InnerMeets(txns: seq<Txn>, cycle: seq<nat>, i: nat, j: nat, a: nat)
    requires i < j < |cycle| && SameFirst(txns, cycle[i], cycle[j]) && a < j - i
    requires Meets(txns, cycle[i + a], cycle[i + a + 1])
    ensures Meets(txns, cycle[i..j][a], After(cycle[i..j], a))
  {
    var inner := cycle[i..j];
    assert inner[a] == cycle[i + a];
    if a + 1 < j - i {
      assert After(inner, a) == cycle[i + a + 1];
    } else {
      assert After(inner, a) == cycle[i] && i + a + 1 == j;
    }
  }

  lemma InnerChained(txns: seq<Txn>, cycle: seq<nat>, i: nat, j: nat)
    requires Chained(txns, cycle) && i < j < |cycle| && SameFirst(txns, cycle[i], cycle[j])
    ensures Chained(txns, cycle[i..j])
  {
    forall a | 0 <= a < j - i ensures Meets(txns, cycle[i..j][a], After(cycle[i..j], a)) {
      assert Meets(txns, cycle[i + a], After(cycle, i + a));
      InnerMeets(txns, cycle, i, j, a);
    }
  }

  /** A cycle that takes a first lock twice has a shorter one inside. */
  lemma {:induction false} Shorten(txns: seq<Txn>, cycle: seq<nat>) returns (short: seq<nat>)
    requires Chained(txns, cycle)
    ensures Chained(txns, short) && FirstsDiffer(txns, short)
    decreases |cycle|
  {
    if FirstsDiffer(txns, cycle) {
      short := cycle;
    } else {
      var i, j :| 0 <= i < j < |cycle| && SameFirst(txns, cycle[i], cycle[j]);
      InnerChained(txns, cycle, i, j);
      short := Shorten(txns, cycle[i..j]);
    }
  }

  /** Each transaction of the cycle has its first lock, the others have none. */
  function Firsts(txns: seq<Txn>, cycle: seq<nat>): seq<nat> {
    seq(|txns|, i requires 0 <= i < |txns| => if i in cycle then 1 else 0)
  }

  lemma FirstsAt(txns: seq<Txn>, cycle: seq<nat>, i: nat)
    requires i < |txns|
    ensures Firsts(txns, cycle)[i] == if i in cycle then 1 else 0
  {}

  lemma IndexOf(cycle: seq<nat>, i: nat) returns (a: nat)
    requires i in cycle
    ensures a < |cycle| && cycle[a] == i
  {
    a :| 0 <= a < |cycle| && cycle[a] == i;
  }

  lemma TakenFirst(txns: seq<Txn>, cycle: seq<nat>, i: nat, held: nat, k: Key) returns (a: nat)
    requires Chained(txns, cycle) && i < |txns| && held == (if i in cycle then 1 else 0) && held <= |txns[i].wants|
    requires k in txns[i].wants[..held]
    ensures a < |cycle| && cycle[a] == i && Meets(txns, i, After(cycle, a)) && k == txns[i].wants[0]
  {
    a := IndexOf(cycle, i);
    assert Meets(txns, cycle[a], After(cycle, a));
    assert txns[i].wants[..1] == [txns[i].wants[0]];
  }

  lemma FirstsApart(txns: seq<Txn>, cycle: seq<nat>)
    requires Chained(txns, cycle) && FirstsDiffer(txns, cycle)
    ensures Apart(txns, Firsts(txns, cycle))
  {
    var held := Firsts(txns, cycle);
    forall i | 0 <= i < |txns| ensures held[i] <= |txns[i].wants| {
      if i in cycle {
        var a :| 0 <= a < |cycle| && cycle[a] == i;
        assert Meets(txns, cycle[a], After(cycle, a));
      }
    }
    forall i, j, k | 0 <= i < |txns| && 0 <= j < |txns|
      && k in txns[i].wants[..held[i]] && k in txns[j].wants[..held[j]] ensures i == j
    {
      FirstsAt(txns, cycle, i);
      FirstsAt(txns, cycle, j);
      var a := TakenFirst(txns, cycle, i, held[i], k);
      var b := TakenFirst(txns, cycle, j, held[j], k);
      assert SameFirst(txns, cycle[a], cycle[b]) && SameFirst(txns, cycle[b], cycle[a]);
    }
  }

  lemma ChainedCrosses(txns: seq<Txn>, cycle: seq<nat>)
    requires Chained(txns, cycle) && FirstsDiffer(txns, cycle)
    ensures Crossing(txns, Firsts(txns, cycle), cycle)
  {
    var held := Firsts(txns, cycle);
    FirstsApart(txns, cycle);
    forall i | 0 <= i < |cycle| ensures Blocked(txns, held, cycle[i], After(cycle, i)) {
      var a, b := cycle[i], After(cycle, i);
      assert Meets(txns, a, b) && a in cycle && b in cycle;
      assert txns[b].wants[..1][0] == txns[b].wants[0];
    }
  }

  lemma CrossingChains(txns: seq<Txn>, held: seq<nat>, cycle: seq<nat>)
    requires Crossing(txns, held, cycle) && forall i :: 0 <= i < |txns| ==> |txns[i].wants| <= 2
    ensures Chained(txns, cycle)
  {
    forall i | 0 <= i < |cycle| ensures cycle[i] < |txns| && held[cycle[i]] == 1 && |txns[cycle[i]].wants| == 2 {
      var p := if i > 0 then i - 1 else |cycle| - 1;
      assert After(cycle, p) == cycle[i];
      assert Blocked(txns, held, cycle[p], cycle[i]);
      assert Blocked(txns, held, cycle[i], After(cycle, i));
    }
    forall i | 0 <= i < |cycle| ensures Meets(txns, cycle[i], After(cycle, i)) {
      assert Blocked(txns, held, cycle[i], After(cycle, i));
      assert held[After(cycle, i)] == 1;
    }
  }

  /** Transactions of at most two locks, such as transfers, can wait in a circle if and only if
      some of them form a cycle in which each one's recipient is the next one's sender. */
  lemma DeadlockIffChained(txns: seq<Txn>)
    requires Starting(txns) && forall i :: 0 <= i < |txns| ==> |txns[i].wants| <= 2
    ensures CanDeadlock(txns) <==> exists cycle :: Chained(txns, cycle)
  {
    DeadlockIffCrossing(txns);
    if held, cycle :| Crossing(txns, held, cycle) {
      CrossingChains(txns, held, cycle);
    }
    if cycle :| Chained(txns, cycle) {
      var short := Shorten(txns, cycle);
      ChainedCrosses(txns, short);
    }
  }

  // ---------- The node's requests ----------

  /** A transaction that takes the locks of a request. */
  ghost predicate Carries(t: Txn, cfg: Config, ns: NodeState, op: Op) {
    t.held == 0 && !t.ended && TakesLocks(cfg, ns, op, t.wants)
  }

  lemma CarriesDistinct(t: Txn, cfg: Config, ns: NodeState, op: Op)
    requires Carries(t, cfg, ns, op)
    ensures Distinct(t.wants) && (!op.SubmitUpdate? ==> |t.wants| <= 2) && (op.SubmitUpdate? ==> KeysIncrease(t.wants))
  {
    forall i, j | 0 <= i < j < |t.wants| ensures t.wants[i] != t.wants[j] {
      KeyLessIrreflexive(t.wants[i]);
    }
  }

  ghost predicate OfUpdate(t: Txn) {
    exists cfg, ns, op: Op :: op.SubmitUpdate? && Carries(t, cfg, ns, op)
  }

  ghost predicate OfOther(t: Txn) {
    exists cfg, ns, op: Op :: !op.SubmitUpdate? && Carries(t, cfg, ns, op)
  }

  lemma RequestsStart(txns: seq<Txn>)
    requires forall i :: 0 <= i < |txns| ==> OfUpdate(txns[i]) || OfOther(txns[i])
    ensures Starting(txns)
    ensures forall i :: 0 <= i < |txns| && OfUpdate(txns[i]) ==> KeysIncrease(txns[i].wants)
    ensures forall i :: 0 <= i < |txns| && OfOther(txns[i]) ==> |txns[i].wants| <= 2
  {
    forall i | 0 <= i < |txns|
      ensures txns[i].held == 0 && !txns[i].ended && Distinct(txns[i].wants)
      ensures OfUpdate(txns[i]) ==> KeysIncrease(txns[i].wants)
      ensures OfOther(txns[i]) ==> |txns[i].wants| <= 2
    {
      if OfUpdate(txns[i]) {
        var cfg, ns, op: Op :| op.SubmitUpdate? && Carries(txns[i], cfg, ns, op);
        CarriesDistinct(txns[i], cfg, ns, op);
      }
      if OfOther(txns[i]) {
        var cfg, ns, op: Op :| !op.SubmitUpdate? && Carries(txns[i], cfg, ns, op);
        CarriesDistinct(txns[i], cfg, ns, op);
      }
    }
  }

  /** Any number of operates, withdraws and closes, as long as nothing else runs beside them,
      never wait in a circle. */
  lemma UpdatesNeverDeadlock(txns: seq<Txn>)
    requires forall i :: 0 <= i < |txns| ==> OfUpdate(txns[i])
    ensures !CanDeadlock(txns)
  {
    RequestsStart(txns);
    if CanDeadlock(txns) {
      var run, cycle :| Deadlocks(txns, run, cycle);
      DeadlockFree(txns, run, |run| - 1, cycle);
    }
  }

  /** All other requests can wait in a circle exactly if transfers among them form a cycle, each
      to the sender of the next. */
  lemma OthersDeadlockIff(txns: seq<Txn>)
    requires forall i :: 0 <= i < |txns| ==> OfOther(txns[i])
    ensures CanDeadlock(txns) <==> exists cycle :: Chained(txns, cycle)
  {
    RequestsStart(txns);
    DeadlockIffChained(txns);
  }

  /** Whatever requests run together, they can wait in a circle exactly if they cross. */
  lemma RequestsDeadlockIff(txns: seq<Txn>)
    requires forall i :: 0 <= i < |txns| ==> OfUpdate(txns[i]) || OfOther(txns[i])
    ensures CanDeadlock(txns) <==> exists held, cycle :: Crossing(txns, held, cycle)
  {
    RequestsStart(txns);
    DeadlockIffCrossing(txns);
  }

  /** A transfer to a recipient that is locked before its sender in the order of withdraws. */
  ghost predicate Descends(p: State) {
    && p.transition.kind == TransferSend && p.transition.account.WalletAccount?
    && KeyLess(ReceiverKey(p), KeyOf(p))
  }

  lemma OutOfOrder(t: Txn) returns (p: State)
    requires OfOther(t) && !KeysIncrease(t.wants)
    ensures Descends(p) && t.wants == StateLocks(p)
  {
    var cfg, ns, op: Op :| !op.SubmitUpdate? && Carries(t, cfg, ns, op);
    p := op.p;
    assert t.wants == StateLocks(p) == [KeyOf(p), ReceiverKey(p)];
    KeyLessTotal(KeyOf(p), ReceiverKey(p));
  }

  /** Without a transfer that locks against the order no requests ever wait in a circle. */
  lemma DeadlockNeedsTransfer(txns: seq<Txn>)
    requires forall i :: 0 <= i < |txns| ==> OfUpdate(txns[i]) || OfOther(txns[i])
    requires CanDeadlock(txns)
    ensures exists i, p :: 0 <= i < |txns| && Descends(p) && txns[i].wants == StateLocks(p)
  {
    RequestsStart(txns);
    if forall i :: 0 <= i < |txns| ==> KeysIncrease(txns[i].wants) {
      var run, cycle :| Deadlocks(txns, run, cycle);
      DeadlockFree(txns, run, |run| - 1, cycle);
    }
    var i :| 0 <= i < |txns| && !KeysIncrease(txns[i].wants);
    var p := OutOfOrder(txns[i]);
  }

  /** Two users who send each other a transfer of the same asset can wait for each other. */
  lemma CrossingTransfersDeadlock(p: State, q: State)
    requires p.transition.kind == TransferSend && p.transition.account == WalletAccount(q.wallet)
    requires q.transition.kind == TransferSend && q.transition.account == WalletAccount(p.wallet)
    requires p.wallet != q.wallet && p.asset == q.asset
    ensures CanDeadlock([Txn(StateLocks(p), 0, false), Txn(StateLocks(q), 0, false)])
  {
    var txns := [Txn(StateLocks(p), 0, false), Txn(StateLocks(q), 0, false)];
    assert Chained(txns, [0, 1]);
    DeadlockIffChained(txns);
  }
}
