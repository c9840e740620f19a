/** The session storm: funds spread over a ternary tree of wallets through app sessions, one
    per parent and iteration, and are collected again. */
module SessionStorm {
  import opened TransferStorm

  // ---------- One session ----------

  /** What the three participants hold in their session. */
  datatype Held = Held(parent: real, child1: real, child2: real)

  /** A deposit by one wallet, of a positive amount that it can cover. */
  method Deposit(b: array<real>, i: nat, x: real) returns (ok: bool)
    requires i < b.Length
    modifies b
    ensures ok <==> x > 0.0 && old(b[i]) >= x
    ensures b[..] == if ok then old(b[..])[i := old(b[i]) - x] else old(b[..])
  {
    if x <= 0.0 || b[i] < x { return false; }
    b[i] := b[i] - x;
    return true;
  }

  /** A redistribution within the session: nothing negative, and the same total. */
  predicate Redistributes(before: Held, after: Held) {
    && after.parent >= 0.0 && after.child1 >= 0.0 && after.child2 >= 0.0
    && after.parent + after.child1 + after.child2 == before.parent + before.child1 + before.child2
  }

  /** Closing releases to each wallet what it holds in the session. */
  method CloseSession(b: array<real>, parent: nat, child1: nat, child2: nat, held: Held)
    requires parent < b.Length && child1 < b.Length && child2 < b.Length
    requires parent != child1 && parent != child2 && child1 != child2
    modifies b
    ensures b[..] == old(b[..])[parent := old(b[parent]) + held.parent]
              [child1 := old(b[child1]) + held.child1][child2 := old(b[child2]) + held.child2]
  {
    b[parent] := b[parent] + held.parent;
    b[child1] := b[child1] + held.child1;
    b[child2] := b[child2] + held.child2;
  }

  predicate AllPassed(results: seq<bool>) {
    forall i :: 0 <= i < |results| ==> results[i]
  }

  /** Create, deposit by the parent, reallocate to the children, close. Creation fails unless
      the session is fresh. After a failure the remaining operations are skipped and count as
      failed. */
  method ExecuteForwardSession(b: array<real>, parent: nat, child1: nat, child2: nat, deposit: real,
                               reallocation: real, isNew: bool)
    returns (results: seq<bool>)
    requires parent < b.Length && child1 < b.Length && child2 < b.Length
    requires parent != child1 && parent != child2 && child1 != child2
    modifies b
    ensures |results| == 4
    ensures AllPassed(results) <==> isNew && deposit > 0.0 && old(b[parent]) >= deposit && deposit == 2.0 * reallocation
    ensures AllPassed(results) ==> b[..] == old(b[..])[parent := old(b[parent]) - deposit]
              [child1 := old(b[child1]) + reallocation][child2 := old(b[child2]) + reallocation]
    ensures results[1] <==> isNew && deposit > 0.0 && old(b[parent]) >= deposit
    ensures !AllPassed(results) ==> b[..] == old(b[..])[parent := old(b[parent]) - if results[1] then deposit else 0.0]
  {
    if !isNew {
      results := [false, false, false, false];
      assert !results[0];
      return;
    }
    var held := Held(0.0, 0.0, 0.0);
    var ok := Deposit(b, parent, deposit);
    if !ok {
      results := [true, false, false, false];
      assert !results[1];
      return;
    }
    held := held.(parent := deposit);
    var target := Held(0.0, reallocation, reallocation);
    if !Redistributes(held, target) {
      results := [true, true, false, false];
      assert !results[2];
      return;
    }
    held := target;
    ghost var mid := b[..];
    CloseSession(b, parent, child1, child2, held);
    assert mid[parent := mid[parent] + 0.0] == mid;
    return [true, true, true, true];
  }

  /** Create, deposit by either child, reallocate to the parent, close. */
  method ExecuteReverseSession(b: array<real>, parent: nat, child1: nat, child2: nat, amount: real, collect: real,
                               isNew: bool)
    returns (results: seq<bool>)
    requires parent < b.Length && child1 < b.Length && child2 < b.Length
    requires parent != child1 && parent != child2 && child1 != child2
    modifies b
    ensures |results| == 5
    ensures AllPassed(results) <==>
            isNew && amount > 0.0 && old(b[child1]) >= amount && old(b[child2]) >= amount && collect == 2.0 * amount
    ensures AllPassed(results) ==> b[..] == old(b[..])[child1 := old(b[child1]) - amount]
              [child2 := old(b[child2]) - amount][parent := old(b[parent]) + collect]
    ensures results[1] <==> isNew && amount > 0.0 && old(b[child1]) >= amount
    ensures results[2] <==> results[1] && old(b[child2]) >= amount
    ensures !AllPassed(results) ==> b[..] == old(b[..])[child1 := old(b[child1]) - if results[1] then amount else 0.0]
              [child2 := old(b[child2]) - if results[2] then amount else 0.0]
  {
    if !isNew {
      results := [false, false, false, false, false];
      assert !results[0];
      return;
    }
    var held := Held(0.0, 0.0, 0.0);
    var ok := Deposit(b, child1, amount);
    if !ok {
      results := [true, false, false, false, false];
      assert !results[1];
      return;
    }
    held := held.(child1 := amount);
    ok := Deposit(b, child2, amount);
    if !ok {
      results := [true, true, false, false, false];
      assert !results[2];
      return;
    }
    held := held.(child2 := amount);
    var target := Held(collect, 0.0, 0.0);
    if !Redistributes(held, target) {
      results := [true, true, true, false, false];
      assert !results[3];
      return;
    }
    held := target;
    ghost var mid := b[..];
    CloseSession(b, parent, child1, child2, held);
    ClosedCollect(mid, parent, child1, child2, collect);
    return [true, true, true, true, true];
  }

  lemma ClosedCollect(b: seq<real>, i: nat, j: nat, k: nat, x: real)
    requires i < |b| && j < |b| && k < |b| && i != j && i != k && j != k
    ensures b[i := b[i] + x][j := b[j] + 0.0][k := b[k] + 0.0] == b[i := b[i] + x]
  {}

  // ---------- One layer ----------

  /** Balances after the sessions of these parents: each has given 2x, and each of its children,
      at m + 2s and m + 2s + 1, has received x. */
  function Shared(b: seq<real>, done: set<nat>, m: nat, x: real): seq<real> {
    seq(|b|, i requires 0 <= i < |b| =>
      if i < m then (if i in done then b[i] - 2.0 * x else b[i])
      else if (i - m) / 2 in done then b[i] + x else b[i])
  }

  /** The children of a parent in a layer are no other parent's, and no parents. */
  lemma ChildrenAre(m: nat, s: nat, i: nat)
    requires s < m && m <= i
    ensures (i - m) / 2 == s <==> i == m + 2 * s || i == m + 2 * s + 1
  {}

  lemma ShareMore(b: seq<real>, done: set<nat>, m: nat, x: real, s: nat)
    requires s < m && 3 * m <= |b| && s !in done && forall d :: d in done ==> d < m
    ensures var before, c := Shared(b, done, m, x), m + 2 * s;
      && before[s] == b[s] && before[c] == b[c] && before[c + 1] == b[c + 1]
      && Shared(b, done + {s}, m, x) == before[s := b[s] - 2.0 * x][c := b[c] + x][c + 1 := b[c + 1] + x]
  {
    var c := m + 2 * s;
    ChildrenAre(m, s, c);
    ChildrenAre(m, s, c + 1);
    var after := Shared(b, done, m, x)[s := b[s] - 2.0 * x][c := b[c] + x][c + 1 := b[c + 1] + x];
    forall i | 0 <= i < |b| ensures Shared(b, done + {s}, m, x)[i] == after[i] {
      if i >= m {
        ChildrenAre(m, s, i);
      }
    }
  }

  /** The session of parent s can be carried out, forward or in reverse. */
  predicate CanShare(b: seq<real>, m: nat, x: real, back: bool, isNew: bool, s: nat) {
    isNew && if back then Covers(b, m + 2 * s, x) && Covers(b, m + 2 * s + 1, x) else Covers(b, s, 2.0 * x)
  }

  /** All sessions but the rest have been tried; so far as all succeeded, this is the result. */
  ghost predicate PartlyShared(before: seq<real>, now: seq<real>, m: nat, x: real, back: bool, isNew: bool,
                               rest: set<nat>, ok: bool)
  {
    && rest <= Below(m) && |now| == |before|
    && (ok <==> forall s :: s in Below(m) - rest ==> CanShare(before, m, x, back, isNew, s))
    && (ok ==> now == Shared(before, Below(m) - rest, m, Moves(x, back)))
    && (forall i: nat :: i < |now| && (if i < m then i in rest else (i - m) / 2 in rest) ==> now[i] == before[i])
  }

  lemma NoneShared(b: seq<real>, m: nat, x: real, back: bool, isNew: bool)
    ensures PartlyShared(b, b, m, x, back, isNew, Below(m), true)
  {
    assert Shared(b, Below(m) - Below(m), m, Moves(x, back)) == b;
  }

  /** What one session leaves behind, whether it succeeds or not. */
  ghost predicate SessionRan(was: seq<real>, now: seq<real>, m: nat, x: real, back: bool, isNew: bool, s: nat,
                             passed: bool)
    requires 3 * m <= |was| && s < m
  {
    var c, y := m + 2 * s, Moves(x, back);
    && |now| == |was| && (passed <==> CanShare(was, m, x, back, isNew, s))
    && (passed ==> now == was[s := was[s] - 2.0 * y][c := was[c] + y][c + 1 := was[c + 1] + y])
    && (!passed && (!back || !isNew) ==> now == was)
    && (forall i :: 0 <= i < |now| && i != s && i != c && i != c + 1 ==> now[i] == was[i])
  }

  lemma SharingKeepsTotal(b: seq<real>, i: nat, j: nat, k: nat, y: real)
    requires i < |b| && j < |b| && k < |b| && i != j && i != k && j != k
    ensures TotalOf(b[i := b[i] - 2.0 * y][j := b[j] + y][k := b[k] + y]) == TotalOf(b)
  {
    var one := b[i := b[i] - 2.0 * y];
    var two := one[j := b[j] + y];
    TotalUpdate(b, i, b[i] - 2.0 * y);
    TotalUpdate(one, j, b[j] + y);
    TotalUpdate(two, k, b[k] + y);
  }

  /** A session that succeeds moves funds only; one that fails leaves them where they are, unless
      a child has already deposited. */
  lemma SessionKeepsTotal(was: seq<real>, now: seq<real>, m: nat, x: real, back: bool, isNew: bool, s: nat,
                          passed: bool)
    requires 3 * m <= |was| && s < m && SessionRan(was, now, m, x, back, isNew, s, passed)
    ensures passed || !back || !isNew ==> TotalOf(now) == TotalOf(was)
  {
    SharingKeepsTotal(was, s, m + 2 * s, m + 2 * s + 1, Moves(x, back));
  }

  lemma NoDeposit(b: seq<real>, i: nat)
    requires i < |b|
    ensures b[i := b[i] - 0.0] == b
  {}

  method RunSession(b: array<real>, s: nat, m: nat, x: real, back: bool, isNew: bool) returns (results: seq<bool>)
    requires s < m && 3 * m <= b.Length
    modifies b
    ensures |results| == if back then 5 else 4
    ensures SessionRan(old(b[..]), b[..], m, x, back, isNew, s, AllPassed(results))
  {
    var c := m + 2 * s;
    ghost var was := b[..];
    NoDeposit(was, s);
    NoDeposit(was, c);
    NoDeposit(was, c + 1);
    if back {
      results := ExecuteReverseSession(b, s, c, c + 1, x, 2.0 * x, isNew);
      if AllPassed(results) {
        CollectIsShare(was, s, c, x);
      }
    } else {
      results := ExecuteForwardSession(b, s, c, c + 1, 2.0 * x, x, isNew);
    }
  }

  lemma CollectIsShare(b: seq<real>, s: nat, c: nat, x: real)
    requires s < c && c + 1 < |b|
    ensures b[c := b[c] - x][c + 1 := b[c + 1] - x][s := b[s] + 2.0 * x]
         == b[s := b[s] - 2.0 * (-x)][c := b[c] + (-x)][c + 1 := b[c + 1] + (-x)]
  {
    assert b[s] - 2.0 * (-x) == b[s] + 2.0 * x && b[c] + (-x) == b[c] - x && b[c + 1] + (-x) == b[c + 1] - x;
  }

  /** One more session of a layer has run. */
  lemma OneMoreShared(before: seq<real>, was: seq<real>, now: seq<real>, m: nat, x: real, back: bool, isNew: bool,
                      rest: set<nat>, ok: bool, s: nat, passed: bool)
    requires s in rest && s < m && 3 * m <= |before| && PartlyShared(before, was, m, x, back, isNew, rest, ok)
    requires |was| == |before| && SessionRan(was, now, m, x, back, isNew, s, passed)
    ensures PartlyShared(before, now, m, x, back, isNew, rest - {s}, ok && passed)
  {
    var c := m + 2 * s;
    ChildrenAre(m, s, c);
    ChildrenAre(m, s, c + 1);
    assert was[s] == before[s] && was[c] == before[c] && was[c + 1] == before[c + 1];
    assert passed <==> CanShare(before, m, x, back, isNew, s);
    DoneWith(m, rest, s);
    ShareMore(before, Below(m) - rest, m, Moves(x, back), s);
    OthersSame(was, now, m, s, rest);
  }

  lemma DoneWith(m: nat, rest: set<nat>, s: nat)
    requires s in rest && rest <= Below(m)
    ensures Below(m) - (rest - {s}) == (Below(m) - rest) + {s} && s !in Below(m) - rest
  {}

  lemma OthersSame(was: seq<real>, now: seq<real>, m: nat, s: nat, rest: set<nat>)
    requires s < m && |was| == |now| && forall i :: 0 <= i < |now| && i != s && i != m + 2 * s && i != m + 2 * s + 1 ==>
      now[i] == was[i]
    ensures forall i: nat :: i < |now| && (if i < m then i in rest - {s} else (i - m) / 2 in rest - {s}) ==>
      now[i] == was[i]
  {
    forall i: nat | i < |now| && (if i < m then i in rest - {s} else (i - m) / 2 in rest - {s})
      ensures now[i] == was[i] {
      if i >= m {
        ChildrenAre(m, s, i);
      }
    }
  }

  /** All sessions of a layer, in any order. Each of them is tried, whether others fail or not. */
  method ShareLayer(b: array<real>, m: nat, x: real, back: bool, isNew: bool) returns (ok: bool, count: nat)
    requires 3 * m <= b.Length
    modifies b
    ensures ok <==> forall s :: s in Below(m) ==> CanShare(old(b[..]), m, x, back, isNew, s)
    ensures ok ==> b[..] == Shared(old(b[..]), Below(m), m, Moves(x, back))
    ensures count == m * if back then 5 else 4
    ensures ok || !back || !isNew ==> TotalOf(b[..]) == TotalOf(old(b[..]))
  {
    ghost var before := b[..];
    NoneShared(before, m, x, back, isNew);
    var rest := Below(m);
    ok, count := true, 0;
    while rest != {}
      invariant PartlyShared(before, b[..], m, x, back, isNew, rest, ok)
      invariant ok || !back || !isNew ==> TotalOf(b[..]) == TotalOf(before)
      invariant count + |rest| * (if back then 5 else 4) == |Below(m)| * if back then 5 else 4
      decreases |rest|
    {
      var s :| s in rest;
      ghost var was := b[..];
      var results := RunSession(b, s, m, x, back, isNew);
      OneMoreShared(before, was, b[..], m, x, back, isNew, rest, ok, s, AllPassed(results));
      SessionKeepsTotal(was, b[..], m, x, back, isNew, s, AllPassed(results));
      rest := rest - {s};
      ok := ok && AllPassed(results);
      count := count + |results|;
    }
    BelowSize(m);
    assert Below(m) - {} == Below(m);
  }

  lemma {:induction false} BelowSize(m: nat)
    ensures |Below(m)| == m
  {
    if m > 0 {
      BelowSize(m - 1);
    }
  }

  // ---------- The tree ----------

  /** A third of the share for three times as many wallets, and the other way round. */
  lemma SpreadThirds(base: seq<real>, m: nat, share: real)
    requires 3 * m <= |base|
    ensures Shared(Spread(base, m, 3.0 * share), Below(m), m, Moves(share, false)) == Spread(base, 3 * m, share)
    ensures Shared(Spread(base, 3 * m, share), Below(m), m, Moves(share, true)) == Spread(base, m, 3.0 * share)
  {}

  /** A layer of parents can deposit exactly if the origin can. */
  lemma ParentsCanShare(b: seq<real>, total: real, m: nat, share: real)
    requires 0 < m && 3 * m <= |b| && NonNegative(b)
    ensures var held := Spread(Base(b, total), m, 3.0 * share);
      (forall s :: s in Below(m) ==> CanShare(held, m, share, false, true, s)) <==>
        share > 0.0 && b[0] - total + share >= 0.0
  {
    var held := Spread(Base(b, total), m, 3.0 * share);
    assert held[0] == b[0] - total + 3.0 * share;
    assert 0 in Below(m);
  }

  /** The children of a layer can always deposit their share back. */
  lemma ChildrenCanShare(base: seq<real>, m: nat, share: real)
    requires 0 < m && 3 * m <= |base| && share > 0.0 && forall i :: 0 < i < |base| ==> base[i] >= 0.0
    ensures forall s :: s in Below(m) ==> CanShare(Spread(base, 3 * m, share), m, share, true, true, s)
  {}

  method ShareDown(b: array<real>, m: nat, share: real, isNew: bool, ghost before: seq<real>, ghost total: real)
    returns (ok: bool, count: nat)
    requires 0 < m && 3 * m <= b.Length == |before| && NonNegative(before)
    requires b[..] == Spread(Base(before, total), m, 3.0 * share)
    modifies b
    ensures ok <==> isNew && share > 0.0 && before[0] - total + share >= 0.0
    ensures ok ==> b[..] == Spread(Base(before, total), 3 * m, share)
    ensures TotalOf(b[..]) == TotalOf(old(b[..]))
    ensures count == m * 4
  {
    ParentsCanShare(before, total, m, share);
    SpreadThirds(Base(before, total), m, share);
    assert 0 in Below(m);
    ok, count := ShareLayer(b, m, share, false, isNew);
  }

  method ShareUp(b: array<real>, m: nat, share: real, isNew: bool, ghost base: seq<real>) returns (ok: bool, count: nat)
    requires 0 < m && 3 * m <= b.Length == |base| && share > 0.0
    requires forall i :: 0 < i < |base| ==> base[i] >= 0.0
    requires b[..] == Spread(base, 3 * m, share)
    modifies b
    ensures ok <==> isNew
    ensures TotalOf(b[..]) == TotalOf(old(b[..]))
    ensures ok ==> b[..] == Spread(base, m, 3.0 * share) && count == m * 5
  {
    ChildrenCanShare(base, m, share);
    SpreadThirds(base, m, share);
    assert 0 in Below(m);
    ok, count := ShareLayer(b, m, share, true, isNew);
  }

  lemma LayerThirds(amount: real, iterations: nat, iter: nat)
    requires 1 <= iter <= iterations
    ensures Power(3, iter) == 3 * Power(3, iter - 1) <= Power(3, iterations)
    ensures Times(amount, 3, iterations - (iter - 1)) == 3.0 * Times(amount, 3, iterations - iter)
    ensures amount > 0.0 ==> Times(amount, 3, iterations - iter) >= amount
    ensures amount <= 0.0 ==> Times(amount, 3, iterations - iter) <= 0.0
  {
    PowerGrows(3, iter, iterations);
    TimesStep(amount, 3, iterations - iter);
    TimesGrows(amount, 3, iterations - iter);
  }

  /** The balances before an iteration, and that the origin could deposit in all earlier ones. */
  ghost predicate Layered3(b: seq<real>, before: seq<real>, amount: real, iterations: nat, iter: nat)
    requires 1 <= iter <= iterations + 1 && |before| > 0
  {
    && b == Spread(Base(before, Times(amount, 3, iterations)), Power(3, iter - 1),
      Times(amount, 3, iterations - (iter - 1)))
    && (iter > 1 ==> amount > 0.0
                     && before[0] - Times(amount, 3, iterations) + Times(amount, 3, iterations - (iter - 1)) >= 0.0)
  }

  // ---------- Which sessions are fresh ----------

  /** Sessions with the same participants differ in their nonces only: 10000 times the number
      of their round, plus the index of their parent. So a round of a layer, which is given by
      the number m of its parents, is fresh if no round of that number has been run in it. */
  type Round = (nat, nat)

  predicate FreshRound(rounds: set<Round>, m: nat, number: nat) {
    (m, number) !in rounds
  }

  /** A number that a plateau of this many cycles uses, for the way back or forth. */
  predicate PlateauNumber(cycles: nat, number: nat) {
    100 < number <= 100 + cycles || 200 < number <= 200 + cycles
  }

  /** After the forward phase: its iterations are numbered 1, 2, 3 and so on. */
  ghost predicate ForwardRounds(rounds: set<Round>, done: nat) {
    forall r :: r in rounds <==> 1 <= r.1 <= done && r.0 == Power(3, r.1 - 1)
  }

  lemma ForwardMore(rounds: set<Round>, iter: nat)
    requires iter >= 1 && ForwardRounds(rounds, iter - 1)
    ensures FreshRound(rounds, Power(3, iter - 1), iter)
    ensures ForwardRounds(rounds + {(Power(3, iter - 1), iter)}, iter)
  {}

  lemma {:induction false} PowersDiffer(i: nat, j: nat)
    requires i < j
    ensures Power(3, i) < Power(3, j)
  {
    PowerGrows(3, i, j - 1);
  }

  /** Of the last layer: the rounds of forward and plateau; of every other: only forward. */
  ghost predicate PlateauRounds(rounds: set<Round>, iterations: nat, back: nat, forth: nat)
    requires iterations >= 1
  {
    var m := Power(3, iterations - 1);
    && (forall number: nat :: (m, number) in rounds <==>
          number == iterations || 100 < number <= 100 + back || 200 < number <= 200 + forth)
    && (forall r :: r in rounds && r.0 != m ==> r.1 <= iterations)
  }

  lemma ForwardThenPlateau(rounds: set<Round>, iterations: nat)
    requires iterations >= 1 && ForwardRounds(rounds, iterations)
    ensures PlateauRounds(rounds, iterations, 0, 0)
  {
    var m := Power(3, iterations - 1);
    forall number: nat ensures (m, number) in rounds <==> number == iterations {
      if 1 <= number < iterations {
        PowersDiffer(number - 1, iterations - 1);
      }
    }
  }

  // ---------- The phases ----------

  method ForwardIteration3(b: array<real>, iterations: nat, iter: nat, amount: real, rounds: set<Round>,
                           ghost before: seq<real>)
    returns (ok: bool, count: nat, rounds': set<Round>)
    requires 1 <= iter <= iterations && b.Length == |before| == Power(3, iterations) && NonNegative(before)
    requires Layered3(b[..], before, amount, iterations, iter) && ForwardRounds(rounds, iter - 1)
    modifies b
    ensures ok ==> Layered3(b[..], before, amount, iterations, iter + 1)
    ensures !ok ==> !Funded(before[0], amount, 3, iterations)
    ensures TotalOf(b[..]) == TotalOf(old(b[..]))
    ensures 2 * count == 4 * (Power(3, iter) - Power(3, iter - 1)) && ForwardRounds(rounds', iter)
  {
    LayerThirds(amount, iterations, iter);
    ForwardMore(rounds, iter);
    var m, share := Power(3, iter - 1), Times(amount, 3, iterations - iter);
    ok, count := ShareDown(b, m, share, FreshRound(rounds, m, iter), before, Times(amount, 3, iterations));
    rounds' := rounds + {(m, iter)};
  }

  /** Forward: in every iteration each wallet so far gives a third of its share to two new children each. */
  method Forward3(b: array<real>, iterations: nat, amount: real) returns (ok: bool, count: nat, rounds: set<Round>)
    requires b.Length == Power(3, iterations) && iterations >= 1 && NonNegative(b[..])
    modifies b
    ensures ok <==> Funded(old(b[0]), amount, 3, iterations)
    ensures TotalOf(b[..]) == TotalOf(old(b[..]))
    ensures ok ==> b[..] == Spread(Base(old(b[..]), Times(amount, 3, iterations)), b.Length, amount)
    ensures ok ==> 2 * count == 4 * (Power(3, iterations) - 1) && ForwardRounds(rounds, iterations)
  {
    ghost var before := b[..];
    SpreadStart(before, Times(amount, 3, iterations));
    count, rounds := 0, {};
    var iter := 1;
    while iter <= iterations
      invariant 1 <= iter <= iterations + 1
      invariant Layered3(b[..], before, amount, iterations, iter) && TotalOf(b[..]) == TotalOf(before)
      invariant 2 * count == 4 * (Power(3, iter - 1) - 1) && ForwardRounds(rounds, iter - 1)
      decreases iterations - iter
    {
      var ops;
      ok, ops, rounds := ForwardIteration3(b, iterations, iter, amount, rounds, before);
      if !ok { return; }
      count := count + ops;
      iter := iter + 1;
    }
    assert Times(amount, 3, 0) == amount;
    ok := true;
  }

  /** No plateau round takes the number of an earlier one. */
  predicate PlateauFresh(iterations: nat, cycles: nat) {
    cycles <= 100 && !PlateauNumber(cycles, iterations)
  }

  /** One cycle of the plateau: back, and forth again. */
  method Cycle3(b: array<real>, ghost before: seq<real>, iterations: nat, c: nat, amount: real, ghost total: real,
                rounds: set<Round>)
    returns (ok: bool, count: nat, rounds': set<Round>)
    requires b.Length == |before| == Power(3, iterations) && iterations >= 1 && NonNegative(before) && c >= 1
    requires b[..] == Spread(Base(before, total), b.Length, amount)
    requires amount > 0.0 && before[0] - total + amount >= 0.0
    requires PlateauRounds(rounds, iterations, c - 1, c - 1)
    modifies b
    ensures ok <==> c <= 100 && iterations != 100 + c && iterations != 200 + c
    ensures TotalOf(b[..]) == TotalOf(old(b[..]))
    ensures ok ==> b[..] == old(b[..]) && count == 9 * Power(3, iterations - 1)
    ensures ok ==> PlateauRounds(rounds', iterations, c, c)
  {
    var m := Power(3, iterations - 1);
    rounds' := rounds;
    ok, count := ShareUp(b, m, amount, FreshRound(rounds', m, 100 + c), Base(before, total));
    if !ok { return; }
    rounds' := rounds' + {(m, 100 + c)};
    assert PlateauRounds(rounds', iterations, c, c - 1);
    var ops;
    ok, ops := ShareDown(b, m, amount, FreshRound(rounds', m, 200 + c), before, total);
    if !ok { return; }
    rounds' := rounds' + {(m, 200 + c)};
    count := count + ops;
  }

  /** Plateau: the last layer shares back and forth. */
  method Plateau3(b: array<real>, ghost before: seq<real>, iterations: nat, cycles: nat, amount: real,
                  ghost total: real, rounds: set<Round>)
    returns (ok: bool, count: nat, rounds': set<Round>)
    requires b.Length == |before| == Power(3, iterations) && iterations >= 1 && NonNegative(before)
    requires b[..] == Spread(Base(before, total), b.Length, amount)
    requires amount > 0.0 && before[0] - total + amount >= 0.0
    requires PlateauRounds(rounds, iterations, 0, 0)
    modifies b
    ensures ok <==> PlateauFresh(iterations, cycles)
    ensures TotalOf(b[..]) == TotalOf(old(b[..]))
    ensures ok ==> b[..] == old(b[..]) && count == cycles * (9 * Power(3, iterations - 1))
    ensures ok ==> PlateauRounds(rounds', iterations, cycles, cycles)
  {
    count, rounds' := 0, rounds;
    for c := 0 to cycles
      invariant TotalOf(b[..]) == TotalOf(old(b[..]))
      invariant b[..] == Spread(Base(before, total), b.Length, amount) && count == c * (9 * Power(3, iterations - 1))
      invariant PlateauRounds(rounds', iterations, c, c) && PlateauFresh(iterations, c)
    {
      var ops;
      ok, ops, rounds' := Cycle3(b, before, iterations, c + 1, amount, total, rounds');
      if !ok { return; }
      count := count + ops;
    }
    ok := true;
  }

  /** The reverse round of an iteration is fresh. */
  predicate ReverseFresh(rounds: set<Round>, iterations: nat, iter: nat) {
    iter >= 1 && FreshRound(rounds, Power(3, iter - 1), iterations + iter)
  }

  /** What is left to be done in reverse finds fresh rounds. */
  ghost predicate ReverseRounds(rounds: set<Round>, iterations: nat, iter: nat) {
    forall j: nat :: 1 <= j <= iter ==> ReverseFresh(rounds, iterations, j)
  }

  lemma PlateauThenReverse(rounds: set<Round>, iterations: nat, cycles: nat)
    requires iterations >= 1 && PlateauRounds(rounds, iterations, cycles, cycles)
    ensures FreshRound(rounds, Power(3, iterations - 1), 2 * iterations) <==> !PlateauNumber(cycles, 2 * iterations)
    ensures ReverseRounds(rounds, iterations, iterations - 1)
  {
    forall j: nat | 1 <= j <= iterations - 1 ensures ReverseFresh(rounds, iterations, j) {
      PowersDiffer(j - 1, iterations - 1);
    }
  }

  lemma ReverseNext(rounds: set<Round>, iterations: nat, iter: nat)
    requires iter >= 1 && ReverseRounds(rounds, iterations, iter - 1)
    ensures ReverseRounds(rounds + {(Power(3, iter - 1), iterations + iter)}, iterations, iter - 1)
  {
    var more := rounds + {(Power(3, iter - 1), iterations + iter)};
    forall j: nat | 1 <= j <= iter - 1 ensures ReverseFresh(more, iterations, j) {
      assert ReverseFresh(rounds, iterations, j);
    }
  }

  method ReverseIteration3(b: array<real>, ghost base: seq<real>, iterations: nat, iter: nat, amount: real,
                           rounds: set<Round>)
    returns (ok: bool, count: nat, rounds': set<Round>)
    requires 1 <= iter <= iterations && b.Length == |base| == Power(3, iterations) && amount > 0.0
    requires b[..] == Spread(base, Power(3, iter), Times(amount, 3, iterations - iter))
    requires forall i :: 0 < i < |base| ==> base[i] >= 0.0
    requires ReverseRounds(rounds, iterations, iter - 1)
    modifies b
    ensures ok <==> ReverseFresh(rounds, iterations, iter)
    ensures TotalOf(b[..]) == TotalOf(old(b[..]))
    ensures ok ==> b[..] == Spread(base, Power(3, iter - 1), Times(amount, 3, iterations - (iter - 1)))
    ensures ok ==> 2 * count == 5 * (Power(3, iter) - Power(3, iter - 1))
    ensures ReverseRounds(rounds', iterations, iter - 1)
  {
    LayerThirds(amount, iterations, iter);
    ReverseNext(rounds, iterations, iter);
    var m, number := Power(3, iter - 1), iterations + iter;
    ok, count := ShareUp(b, m, Times(amount, 3, iterations - iter), FreshRound(rounds, m, number), base);
    rounds' := rounds + {(m, number)};
  }

  /** Reverse: in every iteration the last wallets give their share back to their parents. */
  method Reverse3(b: array<real>, ghost base: seq<real>, iterations: nat, amount: real, rounds: set<Round>)
    returns (ok: bool, count: nat)
    requires b.Length == |base| == Power(3, iterations) && amount > 0.0 && iterations >= 1
    requires b[..] == Spread(base, b.Length, amount)
    requires forall i :: 0 < i < |base| ==> base[i] >= 0.0
    requires ReverseRounds(rounds, iterations, iterations - 1)
    modifies b
    ensures ok <==> FreshRound(rounds, Power(3, iterations - 1), 2 * iterations)
    ensures TotalOf(b[..]) == TotalOf(old(b[..]))
    ensures ok ==> b[..] == Spread(base, 1, Times(amount, 3, iterations)) && 2 * count == 5 * (Power(3, iterations) - 1)
  {
    count := 0;
    var iter, done := iterations, rounds;
    while iter >= 1
      invariant 0 <= iter <= iterations && TotalOf(b[..]) == TotalOf(old(b[..]))
      invariant b[..] == Spread(base, Power(3, iter), Times(amount, 3, iterations - iter))
      invariant 2 * count == 5 * (Power(3, iterations) - Power(3, iter))
      invariant iter == iterations ==> done == rounds
      invariant iter < iterations ==>
        FreshRound(rounds, Power(3, iterations - 1), 2 * iterations) && ReverseRounds(done, iterations, iter)
    {
      assert iter < iterations ==> ReverseFresh(done, iterations, iter);
      var ops;
      ok, ops, done := ReverseIteration3(b, base, iterations, iter, amount, done);
      if !ok { return; }
      count := count + ops;
      iter := iter - 1;
    }
    ok := true;
  }

  /** What the storm announces to be carried out. */
  function Announced3(iterations: nat, cycles: nat): int
    requires iterations >= 1
  {
    var sessions := (Power(3, iterations) - 1) / 2;
    sessions * 4 + cycles * Power(3, iterations - 1) * (5 + 4) + sessions * 5
  }

  lemma AnnouncedIs(iterations: nat, cycles: nat, forward: nat, plateau: nat, reverse: nat)
    requires iterations >= 1
    requires 2 * forward == 4 * (Power(3, iterations) - 1) && 2 * reverse == 5 * (Power(3, iterations) - 1)
    requires plateau == cycles * (9 * Power(3, iterations - 1))
    ensures forward + plateau + reverse == Announced3(iterations, cycles)
  {
    OddPower(iterations);
    var m := Power(3, iterations - 1);
    assert cycles * (9 * m) == cycles * m * 9;
  }

  lemma {:induction false} OddPower(n: nat)
    ensures Power(3, n) % 2 == 1
  {
    if n > 0 {
      OddPower(n - 1);
    }
  }

  /** The whole storm. It succeeds exactly if the amount is positive, the origin can give it to
      every other wallet, and no session takes the nonce of an earlier one of the same
      participants: not with more than 100 cycles. Then every wallet ends with what it started
      with, after as many operations as announced. Whether it succeeds or not, nothing is lost: no
      session that fails holds anything. */
  method RunSessionStorm(b: array<real>, iterations: nat, cycles: nat, amount: real) returns (ok: bool, count: nat)
    requires b.Length == Power(3, iterations) && iterations >= 1 && NonNegative(b[..])
    modifies b
    ensures ok <==> amount > 0.0 && old(b[0]) >= Times(amount, 3, iterations) - amount
                    && cycles <= 100 && !PlateauNumber(cycles, iterations) && !PlateauNumber(cycles, 2 * iterations)
    ensures ok ==> b[..] == old(b[..]) && count == Announced3(iterations, cycles)
    ensures TotalOf(b[..]) == TotalOf(old(b[..]))
  {
    ghost var before, total := b[..], Times(amount, 3, iterations);
    var forward, rounds;
    ok, forward, rounds := Forward3(b, iterations, amount);
    count := forward;
    if !ok { return; }
    SpreadStart(before, total);
    ForwardThenPlateau(rounds, iterations);
    var plateau;
    ok, plateau, rounds := Plateau3(b, before, iterations, cycles, amount, total, rounds);
    count := forward + plateau;
    if !ok { return; }
    PlateauThenReverse(rounds, iterations, cycles);
    var reverse;
    ok, reverse := Reverse3(b, Base(before, total), iterations, amount, rounds);
    count := forward + plateau + reverse;
    if !ok { return; }
    AnnouncedIs(iterations, cycles, forward, plateau, reverse);
  }

  /** Wallet i is a child of parent in this iteration. */
  predicate ChildIn(i: nat, iter: nat, parent: nat) {
    && iter >= 1 && parent < Power(3, iter - 1)
    && (i == Power(3, iter - 1) + 2 * parent || i == Power(3, iter - 1) + 2 * parent + 1)
  }

  /** Every wallet but the origin is the child of exactly one parent in exactly one iteration. */
  lemma {:induction false} OneParent(i: nat, iterations: nat) returns (iter: nat, parent: nat)
    requires 0 < i < Power(3, iterations)
    ensures iter <= iterations && ChildIn(i, iter, parent)
    ensures forall j: nat, p: nat :: j <= iterations && ChildIn(i, j, p) ==> j == iter && p == parent
  {
    if i < Power(3, iterations - 1) {
      iter, parent := OneParent(i, iterations - 1);
    } else {
      iter, parent := iterations, (i - Power(3, iterations - 1)) / 2;
      forall j: nat, p: nat | j <= iterations && ChildIn(i, j, p) ensures j == iter {
        if j < iterations {
          PowerGrows(3, j, iterations - 1);
        }
      }
    }
  }
}
