/** The transfer storm: funds spread over a binary tree of wallets and are collected again. */
module TransferStorm {

  function Power(base: nat, n: nat): (p: nat)
    ensures base >= 1 ==> p >= 1
  {
    if n == 0 then 1 else base * Power(base, n - 1)
  }

  /** amount times a power of the base. */
  function Times(amount: real, base: nat, n: nat): real {
    amount * Power(base, n) as real
  }

  lemma TimesStep(amount: real, base: nat, n: nat)
    ensures Times(amount, base, n + 1) == base as real * Times(amount, base, n)
  {
    var b, p := base as real, Power(base, n) as real;
    assert Power(base, n + 1) as real == b * p;
    assert amount * (b * p) == b * (amount * p);
  }

  lemma {:induction false} TimesGrows(amount: real, base: nat, n: nat)
    requires base >= 1
    ensures amount > 0.0 ==> Times(amount, base, n) >= amount
    ensures amount <= 0.0 ==> Times(amount, base, n) <= 0.0
  {
    if n > 0 {
      TimesGrows(amount, base, n - 1);
      TimesStep(amount, base, n - 1);
      ScaleUp(base as real, Times(amount, base, n - 1));
    }
  }

  lemma ScaleUp(b: real, x: real)
    requires b >= 1.0
    ensures x >= 0.0 ==> b * x >= x
    ensures x <= 0.0 ==> b * x <= 0.0
  {}

  lemma {:induction false} PowerGrows(base: nat, m: nat, n: nat)
    requires base >= 1 && m <= n
    ensures Power(base, m) <= Power(base, n)
  {
    if m < n {
      PowerGrows(base, m, n - 1);
    }
  }

  // ---------- Balances ----------

  function TotalOf(b: seq<real>): real {
    if b == [] then 0.0 else TotalOf(b[..|b| - 1]) + b[|b| - 1]
  }

  lemma {:induction false} TotalUpdate(b: seq<real>, i: nat, x: real)
    requires i < |b|
    ensures TotalOf(b[i := x]) == TotalOf(b) - b[i] + x
    decreases |b|
  {
    var n := |b| - 1;
    if i < n {
      TotalUpdate(b[..n], i, x);
      assert b[i := x][..n] == b[..n][i := x];
    } else {
      assert b[i := x][..n] == b[..n];
    }
  }

  /** A transfer between two wallets: of a positive amount that the sender can cover. */
  method Transfer(b: array<real>, from: nat, to: nat, x: real) returns (ok: bool)
    requires from < b.Length && to < b.Length && from != to
    modifies b
    ensures ok <==> x > 0.0 && old(b[from]) >= x
    ensures b[..] == if ok then old(b[..])[from := old(b[from]) - x][to := old(b[to]) + x] else old(b[..])
  {
    if x <= 0.0 || b[from] < x { return false; }
    b[from] := b[from] - x;
    b[to] := b[to] + x;
    return true;
  }

  /** Balances after the transfers of these senders to the wallets m further on. */
  function Shifted(b: seq<real>, done: set<nat>, m: nat, x: real): seq<real> {
    seq(|b|, i requires 0 <= i < |b| =>
      if i < m then (if i in done then b[i] - x else b[i])
      else if i - m in done then b[i] + x else b[i])
  }

  lemma ShiftMore(b: seq<real>, done: set<nat>, m: nat, x: real, s: nat)
    requires s < m && m + s < |b| && s !in done
    ensures var before := Shifted(b, done, m, x);
      && before[s] == b[s] && before[m + s] == b[m + s]
      && Shifted(b, done + {s}, m, x) == before[s := b[s] - x][m + s := b[m + s] + x]
  {}

  lemma MoveKeepsTotal(b: seq<real>, from: nat, to: nat, x: real)
    requires from < |b| && to < |b| && from != to
    ensures TotalOf(b[from := b[from] - x][to := b[to] + x]) == TotalOf(b)
  {
    TotalUpdate(b, from, b[from] - x);
    TotalUpdate(b[from := b[from] - x], to, b[to] + x);
  }

  function Below(m: nat): (indices: set<nat>)
    ensures forall s: nat :: s in indices <==> s < m
  {
    if m == 0 then {} else Below(m - 1) + {m - 1}
  }

  /** The wallet can pay x. */
  predicate Covers(b: seq<real>, i: nat, x: real) {
    i < |b| && x > 0.0 && b[i] >= x
  }

  /** Who pays in the pair of a wallet below m and the one m further on, and what moves on. */
  function Payer(s: nat, m: nat, back: bool): nat {
    if back then m + s else s
  }

  function Moves(x: real, back: bool): real {
    if back then -x else x
  }

  /** One of the payments from a wallet below m to the one m further on, or back. */
  method PayOne(b: array<real>, s: nat, m: nat, x: real, back: bool, ghost before: seq<real>, ghost moved: set<nat>)
    returns (paid: bool)
    requires s < m && m + s < b.Length && s !in moved
    requires b[..] == Shifted(before, moved, m, Moves(x, back)) && |before| == b.Length
    modifies b
    ensures paid <==> Covers(before, Payer(s, m, back), x)
    ensures b[..] == Shifted(before, if paid then moved + {s} else moved, m, Moves(x, back))
    ensures TotalOf(b[..]) == TotalOf(old(b[..]))
  {
    var from, to := if back then m + s else s, if back then s else m + s;
    PairMoves(before, moved, m, x, back, s, from, to);
    paid := Transfer(b, from, to, x);
  }

  /** One payment more, from one wallet of a pair to the other. */
  lemma PairMoves(before: seq<real>, moved: set<nat>, m: nat, x: real, back: bool, s: nat, from: nat, to: nat)
    requires s < m && m + s < |before| && s !in moved
    requires from == Payer(s, m, back) && to == if back then s else m + s
    ensures var was := Shifted(before, moved, m, Moves(x, back));
      && was[from] == before[from]
      && was[from := was[from] - x][to := was[to] + x] == Shifted(before, moved + {s}, m, Moves(x, back))
      && TotalOf(was[from := was[from] - x][to := was[to] + x]) == TotalOf(was)
  {
    var was := Shifted(before, moved, m, Moves(x, back));
    ShiftMore(before, moved, m, Moves(x, back), s);
    MoveKeepsTotal(was, from, to, x);
    if back {
      MoveBack(was, s, m + s, x);
    }
  }

  lemma MoveBack(b: seq<real>, i: nat, j: nat, x: real)
    requires i < |b| && j < |b| && i != j
    ensures b[j := b[j] - x][i := b[i] + x] == b[i := b[i] - (-x)][j := b[j] + (-x)]
  {
    assert b[i] - (-x) == b[i] + x && b[j] + (-x) == b[j] - x;
  }

  /** All payments but the rest have been tried; those that were possible have been made. */
  ghost predicate PartlyPaid(before: seq<real>, m: nat, x: real, back: bool, rest: set<nat>, moved: set<nat>, ok: bool)
  {
    && rest <= Below(m) && moved <= Below(m) && moved !! rest
    && (ok <==> forall s :: s in Below(m) - rest ==> Covers(before, Payer(s, m, back), x))
    && (ok ==> moved == Below(m) - rest)
  }

  lemma OneMorePaid(before: seq<real>, m: nat, x: real, back: bool, rest: set<nat>, moved: set<nat>, ok: bool, s: nat)
    requires PartlyPaid(before, m, x, back, rest, moved, ok) && s in rest
    ensures var paid := Covers(before, Payer(s, m, back), x);
      PartlyPaid(before, m, x, back, rest - {s}, if paid then moved + {s} else moved, ok && paid)
  {
    var less := rest - {s};
    assert Below(m) - less == (Below(m) - rest) + {s};
  }

  /** Every wallet below m pays x to the wallet m further on, or all of those pay x back, in
      any order. Each of the payments is tried, whether others fail or not. */
  method PayLayer(b: array<real>, m: nat, x: real, back: bool) returns (ok: bool)
    requires 2 * m <= b.Length
    modifies b
    ensures ok <==> forall s :: s in Below(m) ==> Covers(old(b[..]), Payer(s, m, back), x)
    ensures ok ==> b[..] == Shifted(old(b[..]), Below(m), m, Moves(x, back))
    ensures TotalOf(b[..]) == TotalOf(old(b[..]))
  {
    ghost var before := b[..];
    var rest := Below(m);
    ghost var moved: set<nat> := {};
    ok := true;
    assert before == Shifted(before, moved, m, Moves(x, back));
    while rest != {}
      invariant b[..] == Shifted(before, moved, m, Moves(x, back))
      invariant PartlyPaid(before, m, x, back, rest, moved, ok)
      invariant TotalOf(b[..]) == TotalOf(before)
      decreases |rest|
    {
      var s :| s in rest;
      OneMorePaid(before, m, x, back, rest, moved, ok, s);
      var paid := PayOne(b, s, m, x, back, before, moved);
      rest := rest - {s};
      moved := if paid then moved + {s} else moved;
      ok := ok && paid;
    }
    assert Below(m) - {} == Below(m);
  }

  // ---------- The tree ----------

  /** The first m wallets hold a share on top of their base. */
  function Spread(base: seq<real>, m: nat, share: real): seq<real> {
    seq(|base|, i requires 0 <= i < |base| => if i < m then base[i] + share else base[i])
  }

  /** Halving the share doubles the wallets that hold it, and the other way round. */
  lemma SpreadHalves(base: seq<real>, m: nat, share: real)
    requires 2 * m <= |base|
    ensures Shifted(Spread(base, m, 2.0 * share), Below(m), m, share) == Spread(base, 2 * m, share)
    ensures Shifted(Spread(base, 2 * m, share), Below(m), m, -share) == Spread(base, m, 2.0 * share)
  {}

  /** What the origin gives away, and what is left at every wallet: the base of the spread. */
  function Base(b: seq<real>, total: real): seq<real>
    requires |b| > 0
  {
    b[0 := b[0] - total]
  }

  lemma SpreadStart(b: seq<real>, total: real)
    requires |b| > 0
    ensures Spread(Base(b, total), 1, total) == b
  {}

  ghost predicate NonNegative(b: seq<real>) {
    forall i :: 0 <= i < |b| ==> b[i] >= 0.0
  }

  /** A layer can pay exactly if its origin can: everyone else holds the share already. */
  lemma LayerCanPay(b: seq<real>, total: real, m: nat, share: real)
    requires 0 < m && 2 * m <= |b| && NonNegative(b)
    ensures var held := Spread(Base(b, total), m, 2.0 * share);
      (forall s :: s in Below(m) ==> Covers(held, s, share)) <==> share > 0.0 && b[0] - total + share >= 0.0
  {
    var held := Spread(Base(b, total), m, 2.0 * share);
    assert held[0] == b[0] - total + 2.0 * share;
    assert 0 in Below(m);
  }

  /** One forward iteration: the first m wallets give half of their share to a new child each. */
  method PayChildren(b: array<real>, m: nat, share: real, ghost before: seq<real>, ghost total: real) returns (ok: bool)
    requires 0 < m && 2 * m <= b.Length == |before| && NonNegative(before)
    requires b[..] == Spread(Base(before, total), m, 2.0 * share)
    modifies b
    ensures ok <==> share > 0.0 && before[0] - total + share >= 0.0
    ensures ok ==> b[..] == Spread(Base(before, total), 2 * m, share)
    ensures TotalOf(b[..]) == TotalOf(old(b[..]))
  {
    LayerCanPay(before, total, m, share);
    SpreadHalves(Base(before, total), m, share);
    ok := PayLayer(b, m, share, false);
    PayersBelow(m);
  }

  lemma PayersBelow(m: nat)
    ensures forall s :: s in Below(m) ==> Payer(s, m, false) == s && Payer(s, m, true) == m + s
  {}

  lemma SpreadBack(base: seq<real>, m: nat, share: real)
    requires 2 * m <= |base|
    ensures Shifted(Spread(base, 2 * m, share), Below(m), m, Moves(share, true)) == Spread(base, m, 2.0 * share)
  {
    SpreadHalves(base, m, share);
  }

  /** One reverse iteration: the last m wallets give their share back to their parents. */
  method PayParents(b: array<real>, m: nat, share: real, ghost base: seq<real>)
    requires 0 < m && 2 * m <= b.Length == |base| && share > 0.0
    requires forall i :: 0 < i < |base| ==> base[i] >= 0.0
    requires b[..] == Spread(base, 2 * m, share)
    modifies b
    ensures b[..] == Spread(base, m, 2.0 * share)
    ensures TotalOf(b[..]) == TotalOf(old(b[..]))
  {
    ghost var was := Spread(base, 2 * m, share);
    LayerPaysBack(base, m, share);
    SpreadBack(base, m, share);
    var ok := PayLayer(b, m, share, true);
    assert b[..] == Shifted(was, Below(m), m, Moves(share, true));
  }

  /** The last layer can always pay its share back. */
  lemma LayerPaysBack(base: seq<real>, m: nat, share: real)
    requires 0 < m && 2 * m <= |base| && share > 0.0 && forall i :: 0 < i < |base| ==> base[i] >= 0.0
    ensures forall s :: s in Below(m) ==> Covers(Spread(base, 2 * m, share), Payer(s, m, true), share)
  {}

  /** The origin can pay in every iteration exactly if it can in the last. */
  predicate Funded(b0: real, amount: real, base: nat, iterations: nat) {
    amount > 0.0 && b0 - Times(amount, base, iterations) + amount >= 0.0
  }

  /** The share of an iteration is half of the one before, and its layer is twice as wide. */
  lemma LayerSizes(amount: real, iterations: nat, iter: nat)
    requires 1 <= iter <= iterations
    ensures Power(2, iter) == 2 * Power(2, iter - 1) <= Power(2, iterations)
    ensures Times(amount, 2, iterations - (iter - 1)) == 2.0 * Times(amount, 2, iterations - iter)
    ensures amount > 0.0 ==> Times(amount, 2, iterations - iter) >= amount
    ensures amount <= 0.0 ==> Times(amount, 2, iterations - iter) <= 0.0
  {
    PowerGrows(2, iter, iterations);
    TimesStep(amount, 2, iterations - iter);
    TimesGrows(amount, 2, iterations - iter);
  }

  /** The origin could pay in every iteration before this one. */
  predicate Paid(b0: real, amount: real, iterations: nat, iter: nat)
    requires 1 <= iter <= iterations + 1
  {
    iter > 1 ==> amount > 0.0 && b0 - Times(amount, 2, iterations) + Times(amount, 2, iterations - (iter - 1)) >= 0.0
  }

  lemma PaidStep(b0: real, amount: real, iterations: nat, iter: nat)
    requires 1 <= iter <= iterations
    ensures var share := Times(amount, 2, iterations - iter);
      if share > 0.0 && b0 - Times(amount, 2, iterations) + share >= 0.0 then Paid(b0, amount, iterations, iter + 1)
      else !Funded(b0, amount, 2, iterations)
  {
    LayerSizes(amount, iterations, iter);
  }

  lemma PaidAll(b0: real, amount: real, iterations: nat)
    requires iterations >= 1 && Paid(b0, amount, iterations, iterations + 1)
    ensures Funded(b0, amount, 2, iterations) && Times(amount, 2, 0) == amount
  {}

  /** The balances before an iteration: the wallets so far hold its share, on top of their base. */
  ghost predicate Layered(b: seq<real>, before: seq<real>, amount: real, iterations: nat, iter: nat)
    requires 1 <= iter <= iterations + 1 && |before| > 0
  {
    b == Spread(Base(before, Times(amount, 2, iterations)), Power(2, iter - 1),
      Times(amount, 2, iterations - (iter - 1)))
  }

  method ForwardIteration(b: array<real>, iterations: nat, iter: nat, amount: real, ghost before: seq<real>)
    returns (ok: bool)
    requires 1 <= iter <= iterations && b.Length == |before| == Power(2, iterations) && NonNegative(before)
    requires Layered(b[..], before, amount, iterations, iter)
    modifies b
    ensures ok ==> Layered(b[..], before, amount, iterations, iter + 1) && Paid(before[0], amount, iterations, iter + 1)
    ensures !ok ==> !Funded(before[0], amount, 2, iterations)
    ensures TotalOf(b[..]) == TotalOf(old(b[..]))
  {
    LayerSizes(amount, iterations, iter);
    PaidStep(before[0], amount, iterations, iter);
    var m, share := Power(2, iter - 1), Times(amount, 2, iterations - iter);
    ok := PayChildren(b, m, share, before, Times(amount, 2, iterations));
  }

  /** Forward: in every iteration the wallets so far give half of their share to a new child each. */
  method Forward(b: array<real>, iterations: nat, amount: real) returns (ok: bool, count: nat)
    requires b.Length == Power(2, iterations) && iterations >= 1 && NonNegative(b[..])
    modifies b
    ensures ok <==> Funded(old(b[0]), amount, 2, iterations)
    ensures ok ==> b[..] == Spread(Base(old(b[..]), Times(amount, 2, iterations)), b.Length, amount)
    ensures ok ==> count == Power(2, iterations) - 1
    ensures TotalOf(b[..]) == TotalOf(old(b[..]))
  {
    ghost var before := b[..];
    SpreadStart(before, Times(amount, 2, iterations));
    count := 0;
    var iter := 1;
    while iter <= iterations
      invariant 1 <= iter <= iterations + 1
      invariant Layered(b[..], before, amount, iterations, iter) && Paid(before[0], amount, iterations, iter)
      invariant count == Power(2, iter - 1) - 1
      invariant TotalOf(b[..]) == TotalOf(before)
      decreases iterations - iter
    {
      ok := ForwardIteration(b, iterations, iter, amount, before);
      if !ok { return; }
      count := count + Power(2, iter - 1);
      iter := iter + 1;
    }
    PaidAll(before[0], amount, iterations);
    ok := true;
  }

  /** Plateau: the last layer pays its parents back and is paid again. */
  method Plateau(b: array<real>, ghost before: seq<real>, iterations: nat, cycles: nat, amount: real, ghost total: real)
    returns (count: nat)
    requires b.Length == |before| == Power(2, iterations) && iterations >= 1 && NonNegative(before)
    requires b[..] == Spread(Base(before, total), b.Length, amount)
    requires amount > 0.0 && before[0] - total + amount >= 0.0
    modifies b
    ensures b[..] == old(b[..]) && count == cycles * (2 * Power(2, iterations - 1))
    ensures TotalOf(b[..]) == TotalOf(old(b[..]))
  {
    var m := Power(2, iterations - 1);
    count := 0;
    for c := 0 to cycles
      invariant b[..] == Spread(Base(before, total), 2 * m, amount) && count == c * (2 * m)
    {
      PayParents(b, m, amount, Base(before, total));
      count := count + m;
      var ok := PayChildren(b, m, amount, before, total);
      assert ok;
      count := count + m;
    }
  }

  /** Reverse: in every iteration the last wallets give their share back to their parents. */
  method Reverse(b: array<real>, ghost base: seq<real>, iterations: nat, amount: real) returns (count: nat)
    requires b.Length == |base| == Power(2, iterations) && amount > 0.0
    requires b[..] == Spread(base, b.Length, amount)
    requires forall i :: 0 < i < |base| ==> base[i] >= 0.0
    modifies b
    ensures b[..] == Spread(base, 1, Times(amount, 2, iterations)) && count == Power(2, iterations) - 1
  {
    count := 0;
    var iter := iterations;
    while iter >= 1
      invariant 0 <= iter <= iterations
      invariant b[..] == Spread(base, Power(2, iter), Times(amount, 2, iterations - iter))
      invariant count == Power(2, iterations) - Power(2, iter)
    {
      var m, share := Power(2, iter - 1), Times(amount, 2, iterations - iter);
      LayerSizes(amount, iterations, iter);
      PayParents(b, m, share, base);
      count := count + m;
      iter := iter - 1;
    }
  }

  /** What the storm announces to be carried out. */
  function Announced(iterations: nat, cycles: nat): int
    requires iterations >= 1
  {
    2 * (Power(2, iterations) - 1) + cycles * (2 * Power(2, iterations - 1))
  }

  /** The whole storm. It succeeds exactly if the amount is positive and the origin can give
      it to every other wallet; then every wallet ends with what it started with, after as
      many transfers as announced. Whether it succeeds or not, nothing is lost. */
  method RunTransferStorm(b: array<real>, iterations: nat, cycles: nat, amount: real) returns (ok: bool, count: nat)
    requires b.Length == Power(2, iterations) && iterations >= 1 && NonNegative(b[..])
    modifies b
    ensures ok <==> amount > 0.0 && old(b[0]) >= Times(amount, 2, iterations) - amount
    ensures ok ==> b[..] == old(b[..]) && count == Announced(iterations, cycles)
    ensures TotalOf(b[..]) == TotalOf(old(b[..]))
  {
    ghost var before := b[..];
    ok, count := Forward(b, iterations, amount);
    if !ok { return; }
    ghost var base := Base(before, Times(amount, 2, iterations));
    SpreadStart(before, Times(amount, 2, iterations));
    var more := Plateau(b, before, iterations, cycles, amount, Times(amount, 2, iterations));
    count := count + more;
    more := Reverse(b, base, iterations, amount);
    count := count + more;
  }

  /** With the announced amount at the origin and nothing elsewhere, every wallet holds exactly
      the amount once the forward phase is over. */
  lemma EveryWalletHoldsAmount(b: seq<real>, iterations: nat, amount: real, i: nat)
    requires |b| == Power(2, iterations) && i < |b|
    requires b[0] == Times(amount, 2, iterations) && forall j :: 0 < j < |b| ==> b[j] == 0.0
    ensures Spread(Base(b, Times(amount, 2, iterations)), |b|, amount)[i] == amount
  {
    assert Spread(Base(b, Times(amount, 2, iterations)), |b|, amount)[i]
      == Base(b, Times(amount, 2, iterations))[i] + amount;
  }
}
