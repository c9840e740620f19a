/** The gateway that limits a user's actions of a kind in any 24 hours by the user's stake. */
module ActionGateway {
  import opened Channels

  datatype Action =
    | TransferAction
    | AppSessionCreation
    | AppSessionOperation
    | AppSessionDeposit
    | AppSessionWithdrawal
    | OtherAction(name: string)

  /** Unknown actions have identifier zero. */
  function ActionId(a: Action): nat {
    match a
    case TransferAction => 1
    case AppSessionCreation => 10
    case AppSessionOperation => 11
    case AppSessionDeposit => 12
    case AppSessionWithdrawal => 13
    case OtherAction(_) => 0
  }

  const UINT64 := 0x1_0000_0000_0000_0000
  const DAY := 86400.0

  type Count = n: nat | n < UINT64

  datatype Gate = Gate(free: Count, perLevel: Count)

  datatype Limits = Limits(levelStep: real, appCost: real, gates: map<Action, Gate>)

  /** What the constructor of the gateway insists on. */
  predicate Valid(cfg: Limits) {
    cfg.levelStep > 0.0 && cfg.appCost > 0.0 && forall a :: a in cfg.gates ==> ActionId(a) != 0
  }

  // ---------- Allowance ----------

  /** Quotients are rounded to this many units. */
  const UNITS := 10_000_000_000_000_000

  /** Whole levels in a positive quotient that has been rounded to 16 places. */
  function WholeLevels(x: real): nat
    requires x >= 0.0
  {
    (x * UNITS as real + 0.5).Floor / UNITS
  }

  function StakedAllowance(cfg: Limits, action: Action, remaining: real): Count
    requires cfg.levelStep > 0.0
  {
    if action !in cfg.gates then 0
    else
      var gate := cfg.gates[action];
      if remaining <= 0.0 then gate.free
      else
        var levels := WholeLevels(remaining / cfg.levelStep) % UINT64;
        (gate.free + gate.perLevel * levels) % UINT64
  }

  datatype Stake = Stake(tokens: real, apps: nat)

  function Remaining(cfg: Limits, s: Stake): real {
    if s.tokens > 0.0 then s.tokens - cfg.appCost * s.apps as real else s.tokens
  }

  function AllowanceOf(cfg: Limits, s: Stake, action: Action): Count
    requires cfg.levelStep > 0.0
  {
    StakedAllowance(cfg, action, Remaining(cfg, s))
  }

  /** The levels are those that the quotient holds, exactly if it does not come within half a
      unit of the next one: then rounding grants a level that is not fully staked. */
  lemma LevelsExact(x: real)
    requires x >= 0.0
    ensures WholeLevels(x) == x.Floor <==> x * UNITS as real + 0.5 < (x.Floor + 1) as real * UNITS as real
    ensures WholeLevels(x) != x.Floor ==> WholeLevels(x) == x.Floor + 1
  {
    var f, u := x.Floor, (x * UNITS as real + 0.5).Floor;
    assert f as real * UNITS as real <= x * UNITS as real < (f + 1) as real * UNITS as real;
    assert f * UNITS <= u <= (f + 1) * UNITS;
    WholePart(u, f);
  }

  lemma WholePart(u: int, f: int)
    requires f * UNITS <= u <= (f + 1) * UNITS
    ensures u / UNITS == if u < (f + 1) * UNITS then f else f + 1
  {}

  /** Half a unit below the next level of the quotient. */
  function Short(level: nat): real {
    level as real - 0.5 / UNITS as real
  }

  lemma ShortRounds(level: nat)
    requires level > 0
    ensures Short(level) >= 0.0 && Short(level) < level as real && WholeLevels(Short(level)) == level
  {
    assert 0.5 / UNITS as real * UNITS as real == 0.5;
    assert Short(level) * UNITS as real + 0.5 == (level * UNITS) as real;
  }

  lemma Quotient(x: real, step: real)
    requires step > 0.0
    ensures (x * step) / step == x
  {}

  lemma Product(x: real, y: real, step: real)
    requires step > 0.0 && x < y
    ensures x * step < y * step
    ensures x >= 0.0 ==> x * step >= 0.0
  {}

  /** For any step and any level, there is a stake short of that level which is granted it. */
  lemma UnstakedLevel(cfg: Limits, action: Action, level: nat) returns (remaining: real)
    requires cfg.levelStep > 0.0 && action in cfg.gates && 0 < level < UINT64
    ensures 0.0 < remaining < level as real * cfg.levelStep
    ensures StakedAllowance(cfg, action, remaining)
         == (cfg.gates[action].free + cfg.gates[action].perLevel * level) % UINT64
  {
    ShortRounds(level);
    remaining := Short(level) * cfg.levelStep;
    Quotient(Short(level), cfg.levelStep);
    assert remaining / cfg.levelStep == Short(level);
    assert WholeLevels(remaining / cfg.levelStep) % UINT64 == level;
    Product(Short(level), level as real, cfg.levelStep);
    Product(0.0, Short(level), cfg.levelStep);
  }

  /** What is staked beyond the cost of the apps counts, in whole levels: a stake of the apps' cost,
      some levels and not quite another one is granted exactly those levels. */
  lemma LevelsOfStake(cfg: Limits, s: Stake, action: Action, level: Count, extra: real)
    requires Valid(cfg) && action in cfg.gates && extra >= 0.0
    requires extra * UNITS as real + 0.5 * cfg.levelStep < UNITS as real * cfg.levelStep
    requires s.tokens == cfg.appCost * s.apps as real + (level as real * cfg.levelStep + extra)
    ensures AllowanceOf(cfg, s, action) == (cfg.gates[action].free + cfg.gates[action].perLevel * level) % UINT64
  {
    var left := level as real * cfg.levelStep + extra;
    ProductNonNegative(cfg.appCost, s.apps);
    ProductNonNegative(cfg.levelStep, level);
    RemainingIs(cfg, s, left);
    var remaining := Remaining(cfg, s);
    if left == 0.0 {
      LevelZero(cfg.levelStep, level, extra);
    } else {
      var x, part := remaining / cfg.levelStep, extra / cfg.levelStep;
      PartOfLevel(cfg.levelStep, extra, part);
      LevelsAndPart(cfg.levelStep, level, part, x);
      PartFloor(level, part, x);
    }
    Granted(cfg, action, remaining, level);
  }

  lemma ProductNonNegative(cost: real, n: nat)
    requires cost > 0.0
    ensures cost * n as real >= 0.0 && n as real * cost >= 0.0
  {}

  /** Each app takes its cost from the stake. */
  lemma RemainingIs(cfg: Limits, s: Stake, left: real)
    requires s.tokens == cfg.appCost * s.apps as real + left && left >= 0.0 && cfg.appCost * s.apps as real >= 0.0
    ensures left > 0.0 ==> Remaining(cfg, s) == left
    ensures left == 0.0 ==> Remaining(cfg, s) <= 0.0
  {}

  lemma LevelZero(step: real, level: nat, extra: real)
    requires step > 0.0 && extra >= 0.0 && level as real * step + extra <= 0.0
    ensures level == 0
  {
    if level > 0 {
      Product(0.0, level as real, step);
    }
  }

  lemma PartOfLevel(step: real, extra: real, part: real)
    requires step > 0.0 && extra >= 0.0 && extra * UNITS as real + 0.5 * step < UNITS as real * step
    requires part == extra / step
    ensures part >= 0.0 && part * step == extra && part * UNITS as real + 0.5 < UNITS as real
  {
    var rounded := part * UNITS as real + 0.5;
    assert part * step == extra;
    assert rounded * step == extra * UNITS as real + 0.5 * step;
    if UNITS as real <= rounded {
      NotLess(UNITS as real, rounded, step);
    }
  }

  lemma NotLess(x: real, y: real, step: real)
    requires step > 0.0 && x <= y
    ensures x * step <= y * step
  {}

  lemma LevelsAndPart(step: real, level: nat, part: real, x: real)
    requires step > 0.0 && x == (level as real * step + part * step) / step
    ensures x == level as real + part
  {
    var sum := level as real + part;
    assert sum * step == level as real * step + part * step;
    Quotient(sum, step);
  }

  lemma PartFloor(level: nat, part: real, x: real)
    requires x == level as real + part && 0.0 <= part && part * UNITS as real + 0.5 < UNITS as real
    ensures x >= 0.0 && WholeLevels(x) == level
  {
    assert x.Floor == level;
    LevelsExact(x);
  }

  lemma Granted(cfg: Limits, action: Action, remaining: real, level: Count)
    requires Valid(cfg) && action in cfg.gates
    requires remaining <= 0.0 ==> level == 0
    requires remaining > 0.0 ==>
      remaining / cfg.levelStep >= 0.0 && WholeLevels(remaining / cfg.levelStep) == level
    ensures StakedAllowance(cfg, action, remaining)
         == (cfg.gates[action].free + cfg.gates[action].perLevel * level) % UINT64
  {
    if remaining > 0.0 {
      assert WholeLevels(remaining / cfg.levelStep) % UINT64 == level;
    } else {
      assert cfg.gates[action].perLevel * level == 0;
    }
  }

  // ---------- The action log ----------

  datatype Entry = Entry(user: Wallet, action: Action, time: real)

  predicate Within(e: Entry, user: Wallet, action: Action, from: real, to: real) {
    e.user == user && e.action == action && from <= e.time <= to
  }

  /** The entries of a user and kind in a span of time, both ends included. */
  function CountBetween(log: seq<Entry>, user: Wallet, action: Action, from: real, to: real): nat {
    if log == [] then 0
    else CountBetween(log[..|log| - 1], user, action, from, to)
         + if Within(log[|log| - 1], user, action, from, to) then 1 else 0
  }

  /** The entries of a user and kind from a time on. */
  function CountSince(log: seq<Entry>, user: Wallet, action: Action, since: real): nat {
    if log == [] then 0
    else CountSince(log[..|log| - 1], user, action, since)
         + if Within(log[|log| - 1], user, action, since, log[|log| - 1].time) then 1 else 0
  }

  predicate Admits(cfg: Limits, s: Stake, log: seq<Entry>, user: Wallet, action: Action, now: real)
    requires Valid(cfg)
  {
    action in cfg.gates ==> CountSince(log, user, action, now - DAY) < AllowanceOf(cfg, s, action)
  }

  datatype Request = Request(user: Wallet, action: Action, time: real)

  /** The log after one more request: a gated action that is admitted is recorded. */
  function LogNext(cfg: Limits, s: Stake, log: seq<Entry>, r: Request): seq<Entry>
    requires Valid(cfg)
  {
    if r.action in cfg.gates && Admits(cfg, s, log, r.user, r.action, r.time)
    then log + [Entry(r.user, r.action, r.time)] else log
  }

  datatype ActionAllowance = ActionAllowance(action: Action, allowance: Count, used: nat)

  predicate SortedById(r: seq<ActionAllowance>) {
    forall i, j :: 0 <= i < j < |r| ==> ActionId(r[i].action) < ActionId(r[j].action)
  }

  class Gateway {
    const cfg: Limits
    var log: seq<Entry>

    constructor (cfg: Limits)
      requires Valid(cfg)
      ensures this.cfg == cfg && log == []
    {
      this.cfg, log := cfg, [];
    }

    method GetUserActionCount(user: Wallet, action: Action, now: real) returns (count: nat)
      ensures count == CountSince(log, user, action, now - DAY)
    {
      count := 0;
      for i := 0 to |log|
        invariant count == CountSince(log[..i], user, action, now - DAY)
      {
        assert log[..i + 1][..i] == log[..i];
        if log[i].user == user && log[i].action == action && log[i].time >= now - DAY {
          count := count + 1;
        }
      }
      assert log[..|log|] == log;
    }

    method RemainingStake(s: Stake) returns (remaining: real)
      ensures remaining == Remaining(cfg, s)
    {
      remaining := s.tokens;
      if s.tokens > 0.0 {
        remaining := s.tokens - cfg.appCost * s.apps as real;
      }
    }

    /** Admits an action and records it, or refuses it. Actions without a gate are neither. */
    method AllowAction(s: Stake, user: Wallet, action: Action, now: real) returns (ok: bool)
      requires Valid(cfg)
      modifies this
      ensures ok <==> Admits(cfg, s, old(log), user, action, now)
      ensures log == LogNext(cfg, s, old(log), Request(user, action, now))
    {
      if action !in cfg.gates { return true; }
      var remaining := RemainingStake(s);
      var allowance := StakedAllowance(cfg, action, remaining);
      var used := GetUserActionCount(user, action, now);
      if used >= allowance { return false; }
      log := log + [Entry(user, action, now)];
      return true;
    }

    method GetUserActionCounts(user: Wallet, now: real) returns (counts: map<Action, nat>)
      ensures forall a :: (if a in counts then counts[a] else 0) == CountSince(log, user, a, now - DAY)
    {
      counts := map[];
      for i := 0 to |log|
        invariant forall a :: (if a in counts then counts[a] else 0) == CountSince(log[..i], user, a, now - DAY)
      {
        assert log[..i + 1][..i] == log[..i];
        var e := log[i];
        if e.user == user && e.time >= now - DAY {
          counts := counts[e.action := (if e.action in counts then counts[e.action] else 0) + 1];
        }
      }
      assert log[..|log|] == log;
    }

    /** One allowance for every gate, sorted by the identifier of its action. */
    method GetUserAllowances(s: Stake, user: Wallet, now: real) returns (r: seq<ActionAllowance>)
      requires Valid(cfg)
      ensures ActionsOf(r) == cfg.gates.Keys && SortedById(r)
      ensures forall x :: x in r ==> x == Report(cfg, s, log, user, x.action, now)
    {
      var counts := GetUserActionCounts(user, now);
      var remaining := RemainingStake(s);
      r := [];
      var rest := cfg.gates.Keys;
      while rest != {}
        invariant rest <= cfg.gates.Keys
        invariant Reported(cfg, s, log, user, now, r, cfg.gates.Keys - rest)
        decreases |rest|
      {
        var a :| a in rest;
        var used := if a in counts then counts[a] else 0;
        assert used == CountSince(log, user, a, now - DAY);
        var x := ActionAllowance(a, StakedAllowance(cfg, a, remaining), used);
        r := AddReport(cfg, s, log, user, now, r, cfg.gates.Keys, rest, x);
        rest := rest - {a};
      }
    }
  }

  /** The reports of these actions, sorted. */
  ghost predicate Reported(cfg: Limits, s: Stake, log: seq<Entry>, user: Wallet, now: real, r: seq<ActionAllowance>,
                           done: set<Action>)
    requires Valid(cfg)
  {
    ActionsOf(r) == done && SortedById(r) && forall x :: x in r ==> x == Report(cfg, s, log, user, x.action, now)
  }

  function Report(cfg: Limits, s: Stake, log: seq<Entry>, user: Wallet, action: Action, now: real): ActionAllowance
    requires Valid(cfg)
  {
    ActionAllowance(action, AllowanceOf(cfg, s, action), CountSince(log, user, action, now - DAY))
  }

  function ActionsOf(r: seq<ActionAllowance>): set<Action> {
    set x | x in r :: x.action
  }

  lemma ActionsMore(before: seq<ActionAllowance>, x: ActionAllowance, after: seq<ActionAllowance>)
    requires forall y :: y in after <==> y in before || y == x
    ensures ActionsOf(after) == ActionsOf(before) + {x.action}
  {
    assert x in after;
    forall a | a in ActionsOf(before) ensures a in ActionsOf(after) {
      var y :| y in before && y.action == a;
      assert y in after;
    }
  }

  lemma ActionIdsDiffer(a: Action, b: Action)
    requires ActionId(a) != 0 && ActionId(a) == ActionId(b)
    ensures a == b
  {}

  method InsertById(sorted: seq<ActionAllowance>, x: ActionAllowance) returns (r: seq<ActionAllowance>)
    requires SortedById(sorted) && ActionId(x.action) != 0
    requires x.action !in ActionsOf(sorted)
    ensures SortedById(r) && forall y :: y in r <==> y in sorted || y == x
  {
    var i := 0;
    while i < |sorted| && ActionId(sorted[i].action) < ActionId(x.action)
      invariant 0 <= i <= |sorted|
      invariant forall j :: 0 <= j < i ==> ActionId(sorted[j].action) < ActionId(x.action)
    {
      i := i + 1;
    }
    if i < |sorted| {
      assert sorted[i] in sorted;
      if ActionId(sorted[i].action) == ActionId(x.action) {
        ActionIdsDiffer(sorted[i].action, x.action);
      }
    }
    r := sorted[..i] + [x] + sorted[i..];
    Inserted(sorted, i, x);
  }

  lemma Inserted(sorted: seq<ActionAllowance>, i: nat, x: ActionAllowance)
    requires SortedById(sorted) && i <= |sorted|
    requires forall j :: 0 <= j < i ==> ActionId(sorted[j].action) < ActionId(x.action)
    requires i < |sorted| ==> ActionId(x.action) < ActionId(sorted[i].action)
    ensures var r := sorted[..i] + [x] + sorted[i..]; SortedById(r) && forall y :: y in r <==> y in sorted || y == x
  {
    assert sorted == sorted[..i] + sorted[i..];
  }

  method AddReport(cfg: Limits, s: Stake, ghost log: seq<Entry>, user: Wallet, now: real, sorted: seq<ActionAllowance>,
                   ghost gated: set<Action>, ghost rest: set<Action>,
                   x: ActionAllowance)
    returns (r: seq<ActionAllowance>)
    requires Valid(cfg) && rest <= gated && x.action in rest && ActionId(x.action) != 0
    requires Reported(cfg, s, log, user, now, sorted, gated - rest) && x == Report(cfg, s, log, user, x.action, now)
    ensures Reported(cfg, s, log, user, now, r, gated - (rest - {x.action}))
  {
    r := InsertById(sorted, x);
    ActionsMore(sorted, x, r);
    assert gated - (rest - {x.action}) == (gated - rest) + {x.action};
  }

  /** An action with a gate is admitted exactly if its reported use is below its allowance. */
  method AdmitsAsReported(gateway: Gateway, s: Stake, user: Wallet, action: Action, now: real)
    returns (reported: ActionAllowance, ok: bool)
    requires Valid(gateway.cfg) && action in gateway.cfg.gates
    modifies gateway
    ensures reported.action == action && (ok <==> reported.used < reported.allowance)
  {
    var reports := gateway.GetUserAllowances(s, user, now);
    assert action in ActionsOf(reports);
    var i :| 0 <= i < |reports| && reports[i].action == action;
    reported := reports[i];
    assert reported in reports;
    ok := gateway.AllowAction(s, user, action, now);
  }

  // ---------- Runs ----------

  predicate Clock(reqs: seq<Request>) {
    forall i, j :: 0 <= i <= j < |reqs| ==> reqs[i].time <= reqs[j].time
  }

  /** A user without a stake has none. */
  function StakeOf(stakes: map<Wallet, Stake>, user: Wallet): Stake {
    if user in stakes then stakes[user] else Stake(0.0, 0)
  }

  /** The log after the first n requests, with stakes that stay as they are. */
  function LogAfter(cfg: Limits, stakes: map<Wallet, Stake>, reqs: seq<Request>, n: nat): seq<Entry>
    requires Valid(cfg) && n <= |reqs|
  {
    if n == 0 then []
    else
      LogNext(cfg, StakeOf(stakes, reqs[n - 1].user), LogAfter(cfg, stakes, reqs, n - 1), reqs[n - 1])
  }

  lemma {:induction false} LogUpTo(cfg: Limits, stakes: map<Wallet, Stake>, reqs: seq<Request>, n: nat, e: Entry)
    requires Valid(cfg) && Clock(reqs) && n <= |reqs| && e in LogAfter(cfg, stakes, reqs, n)
    ensures n > 0 && e.time <= reqs[n - 1].time
  {
    var r := reqs[n - 1];
    if e in LogAfter(cfg, stakes, reqs, n - 1) {
      LogUpTo(cfg, stakes, reqs, n - 1, e);
    }
  }

  /** A window that begins later, and ends anyhow, holds no more. */
  lemma {:induction false} WindowHoldsLess(log: seq<Entry>, user: Wallet, action: Action, since: real, from: real,
                                           to: real)
    requires since <= from
    ensures CountBetween(log, user, action, from, to) <= CountSince(log, user, action, since)
  {
    if log != [] {
      WindowHoldsLess(log[..|log| - 1], user, action, since, from, to);
    }
  }

  /** With fixed stakes, no window of 24 hours ever holds more recorded actions of a gated kind
      than the user's allowance. */
  lemma {:induction false} WindowBound(cfg: Limits, stakes: map<Wallet, Stake>, reqs: seq<Request>, n: nat,
                                       user: Wallet, action: Action, from: real)
    requires Valid(cfg) && Clock(reqs) && n <= |reqs| && action in cfg.gates
    ensures CountBetween(LogAfter(cfg, stakes, reqs, n), user, action, from, from + 86400.0)
            <= AllowanceOf(cfg, StakeOf(stakes, user), action)
  {
    if n > 0 {
      WindowBound(cfg, stakes, reqs, n - 1, user, action, from);
      var before, log, r := LogAfter(cfg, stakes, reqs, n - 1), LogAfter(cfg, stakes, reqs, n), reqs[n - 1];
      if log != before {
        assert log[..|log| - 1] == before;
        if Within(Entry(r.user, r.action, r.time), user, action, from, from + DAY) {
          WindowHoldsLess(before, user, action, r.time - DAY, from, from + DAY);
        }
      }
    }
  }

  /** And no action is refused while the last 24 hours hold fewer than the allowance: the
      bound is the only reason for a refusal. */
  lemma RefusedAtBound(cfg: Limits, stakes: map<Wallet, Stake>, reqs: seq<Request>, n: nat)
    requires Valid(cfg) && Clock(reqs) && n < |reqs|
    requires LogAfter(cfg, stakes, reqs, n + 1) == LogAfter(cfg, stakes, reqs, n) && reqs[n].action in cfg.gates
    ensures var r := reqs[n];
      CountBetween(LogAfter(cfg, stakes, reqs, n), r.user, r.action, r.time - 86400.0, r.time)
      == AllowanceOf(cfg, StakeOf(stakes, r.user), r.action)
  {
    var log, r := LogAfter(cfg, stakes, reqs, n), reqs[n];
    assert |log + [Entry(r.user, r.action, r.time)]| == |log| + 1;
    LogUpToNext(cfg, stakes, reqs, n);
    SinceIsWindow(log, r.user, r.action, r.time - DAY, r.time);
    WindowBound(cfg, stakes, reqs, n, r.user, r.action, r.time - DAY);
  }

  lemma LogUpToNext(cfg: Limits, stakes: map<Wallet, Stake>, reqs: seq<Request>, n: nat)
    requires Valid(cfg) && Clock(reqs) && n < |reqs|
    ensures var log := LogAfter(cfg, stakes, reqs, n); forall i :: 0 <= i < |log| ==> log[i].time <= reqs[n].time
  {
    var log := LogAfter(cfg, stakes, reqs, n);
    forall i | 0 <= i < |log| ensures log[i].time <= reqs[n].time {
      LogUpTo(cfg, stakes, reqs, n, log[i]);
    }
  }

  lemma {:induction false} SinceIsWindow(log: seq<Entry>, user: Wallet, action: Action, since: real, now: real)
    requires forall i :: 0 <= i < |log| ==> log[i].time <= now
    ensures CountSince(log, user, action, since) == CountBetween(log, user, action, since, now)
  {
    if log != [] {
      SinceIsWindow(log[..|log| - 1], user, action, since, now);
    }
  }
}
