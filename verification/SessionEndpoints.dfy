/** The endpoints that create an app session, and that operate, withdraw from or close it. */
module SessionEndpoints {
  import opened Options
  import opened Channels
  import opened Quorum
  import opened Allocations
  import opened NodeModel
  import opened Invariants
  import opened Database
  import opened UserLocks
  import opened SessionUpdates
  import opened OperateIntent
  import opened ReleaseIntents

  // ---------- Creating a session ----------

  method CreateAppSession(cfg: Config, store: Store, def: Definition, data: string, signers: seq<Option<Wallet>>,
                          allowed: bool)
    returns (ok: bool)
    requires Inv(cfg, store.Snapshot())
    modifies store`sessions
    ensures Inv(cfg, store.Snapshot())
    ensures ok <==> Accepts(cfg, old(store.Snapshot()), CreateSession(def, data, signers, allowed))
    ensures Step(cfg, old(store.Snapshot()), CreateSession(def, data, signers, allowed), store.Snapshot())
  {
    if |def.participants| > cfg.maxParticipants || |signers| > |def.participants| { return false; }
    if |data| > cfg.maxSessionData { return false; }
    if def.application == "" || def.nonce == 0 { return false; }
    var valid := CheckDefinition(def.participants, def.quorum);
    if !valid || |signers| == 0 { return false; }
    if !allowed { return false; }
    var weights := GetParticipantWeights(def.participants);
    var met := VerifyQuorum(weights, def.quorum, signers);
    if !met { return false; }
    ghost var before := store.Snapshot();
    var session := Session(def.application, def.participants, def.quorum, def.nonce, Open, 1, data);
    ok := store.CreateAppSession(SessionIdOf(def), session);
    if ok {
      SessionApplies(before, def, data);
    }
    StepKeepsInv(cfg, before, CreateSession(def, data, signers, allowed), store.Snapshot());
  }

  lemma SessionApplies(ns: NodeState, def: Definition, data: string)
    ensures Applied(ns, SessionEffect(def, data), ns.(sessions := ns.sessions[SessionIdOf(def) :=
      Session(def.application, def.participants, def.quorum, def.nonce, Open, 1, data)]))
  {
    assert AppendAll(ns.chains, map[]) == ns.chains;
    assert ns.entries[..|ns.entries|] == ns.entries;
  }

  // ---------- Updating a session ----------

  lemma OperateApplies(ns: NodeState, u: Update, now: NodeState)
    requires u.session in ns.sessions && u.intent == Operate
    requires Recorded(ns, Delta(CurrentOf(ns, u.session), ListedBy(u)), now)
    ensures Applied(ns, UpdateEffect(ns, u),
      now.(sessions := ns.sessions[u.session := Advanced(ns.sessions[u.session], u, Open)]))
  {
    assert AppendAll(ns.chains, map[]) == ns.chains;
    assert ReleaseTxs(map[]) == {};
  }

  lemma ReleaseApplies(ns: NodeState, u: Update, now: NodeState)
    requires u.session in ns.sessions && u.intent != Operate
    requires Partly(ns, u.session, Delta(CurrentOf(ns, u.session), Target(u)), now)
    ensures Applied(ns, UpdateEffect(ns, u), now.(sessions := ns.sessions[u.session :=
      Advanced(ns.sessions[u.session], u, StatusAfter(u))]))
  {
    var changes := Delta(CurrentOf(ns, u.session), Target(u));
    var s := Advanced(ns.sessions[u.session], u, StatusAfter(u));
    ReleasedApplies(ns, u.session, changes, s, now);
    assert UpdateEffect(ns, u) == ReleaseEffect(ns, u.session, changes, s);
  }

  function ReleaseEffect(ns: NodeState, session: Id, changes: map<Slot, real>, s: Session): Effect {
    var released := Releases(ns, session, changes);
    Effect(released, changes, map[session := s], {}, ReleaseTxs(released))
  }

  lemma PutOne(sessions: map<Id, Session>, id: Id, s: Session)
    ensures sessions + map[id := s] == sessions[id := s]
  {}

  lemma ReleasedApplies(ns: NodeState, session: Id, changes: map<Slot, real>, s: Session, now: NodeState)
    requires Partly(ns, session, changes, now)
    ensures Applied(ns, ReleaseEffect(ns, session, changes, s), now.(sessions := ns.sessions[session := s]))
  {
    var released := Releases(ns, session, changes);
    CarriedApplies(ns, released, changes, ReleaseTxs(released), map[session := s], now);
    PutOne(ns.sessions, session, s);
  }

  /** What an intent asks of an authorized update. */
  ghost predicate IntentOk(cfg: Config, ns: NodeState, u: Update) {
    match u.intent
    case Operate => OperateOk(cfg, ns, u)
    case Withdraw => WithdrawOk(cfg, ns, u)
    case Close => CloseOk(cfg, ns, u)
    case _ => false
  }

  lemma AcceptsIs(cfg: Config, ns: NodeState, su: SignedUpdate)
    ensures AcceptsUpdate(cfg, ns, su) <==> Authorized(cfg, ns, su) && IntentOk(cfg, ns, su.update)
    ensures Authorized(cfg, ns, su) ==>
      su.update.session in ns.sessions && ns.sessions[su.update.session].status == Open
  {}

  /** The store with a session moved to its next version. */
  function WithAdvanced(ns: NodeState, u: Update): NodeState
    requires u.session in ns.sessions
  {
    ns.(sessions := ns.sessions[u.session := Advanced(ns.sessions[u.session], u, StatusAfter(u))])
  }

  /** Moves the session to its next version. */
  method AdvanceSession(store: Store, u: Update, s: Session)
    requires u.session in store.sessions && s == store.sessions[u.session] && s.status == Open
    modifies store`sessions
    ensures store.Snapshot() == WithAdvanced(old(store.Snapshot()), u)
  {
    var session := s;
    if u.intent == Close {
      session := session.(status := Closed);
    }
    session := session.(version := session.version + 1);
    if u.data != "" {
      session := session.(data := u.data);
    }
    var ok := store.UpdateAppSession(u.session, session);
    assert ok;
  }

  /** Carries out the intent of an authorized update, short of the session itself. */
  method HandleIntent(cfg: Config, store: Store, u: Update, cur: map<Slot, real>, weights: map<Wallet, Weight>)
    returns (ok: bool)
    requires Inv(cfg, store.Snapshot()) && u.session in store.sessions
    requires cur == CurrentOf(store.Snapshot(), u.session) && weights == WeightsIn(store.Snapshot(), u.session)
    requires u.intent == Operate || u.intent == Withdraw || u.intent == Close
    modifies store
    ensures ok <==> IntentOk(cfg, old(store.Snapshot()), u)
    ensures ok ==> store.sessions == old(store.sessions)
    ensures ok ==>
      Applied(old(store.Snapshot()), UpdateEffect(old(store.Snapshot()), u), WithAdvanced(store.Snapshot(), u))
    ensures LockedFirst(old(store.locks), store.locks, ReleasedTo(old(store.Snapshot()), u))
    ensures ok ==> LockedAll(old(store.locks), store.locks, ReleasedTo(old(store.Snapshot()), u))
  {
    ghost var ns := store.Snapshot();
    NoneLocked(store.locks, ReleasedTo(ns, u));
    match u.intent
    case Operate =>
      ok := HandleOperateIntent(cfg, store, u, cur, weights);
      if ok { OperateApplies(ns, u, store.Snapshot()); }
    case Withdraw =>
      ok := HandleWithdrawIntent(cfg, store, u, cur, weights);
      if ok { ReleaseApplies(ns, u, store.Snapshot()); }
    case Close =>
      ok := HandleCloseIntent(cfg, store, u, cur, weights);
      if ok { ReleaseApplies(ns, u, store.Snapshot()); }
  }

  method SubmitAppStateTx(cfg: Config, store: Store, su: SignedUpdate) returns (ok: bool)
    requires Inv(cfg, store.Snapshot())
    requires su.update.intent == Operate || su.update.intent == Withdraw || su.update.intent == Close
    modifies store
    ensures ok <==> AcceptsUpdate(cfg, old(store.Snapshot()), su)
    ensures ok ==> Applied(old(store.Snapshot()), UpdateEffect(old(store.Snapshot()), su.update), store.Snapshot())
    ensures LockedFirst(old(store.locks), store.locks, ReleasedTo(old(store.Snapshot()), su.update))
    ensures ok ==> LockedAll(old(store.locks), store.locks, ReleasedTo(old(store.Snapshot()), su.update))
  {
    var u := su.update;
    AcceptsIs(cfg, store.Snapshot(), su);
    NoneLocked(store.locks, ReleasedTo(store.Snapshot(), su.update));
    var session, weights;
    ok, session, weights := Authorize(cfg, store, su);
    if !ok { return; }
    var cur := CurrentAllocations(store, u.session, weights, store.Snapshot());
    ok := HandleIntent(cfg, store, u, cur, weights);
    if !ok { return; }
    AdvanceSession(store, u, session);
  }

  /** Operate, withdraw or close: all or nothing. It locks the states of exactly the users that it
      releases funds to, in order. */
  method SubmitAppState(cfg: Config, store: Store, su: SignedUpdate) returns (ok: bool)
    requires Inv(cfg, store.Snapshot())
    modifies store
    ensures Inv(cfg, store.Snapshot())
    ensures ok <==> Accepts(cfg, old(store.Snapshot()), SubmitUpdate(su))
    ensures Step(cfg, old(store.Snapshot()), SubmitUpdate(su), store.Snapshot())
    ensures Locked(cfg, old(store.Snapshot()), SubmitUpdate(su), old(store.locks), store.locks)
  {
    var intent := su.update.intent;
    NoneLocked(store.locks, ReleasedTo(store.Snapshot(), su.update));
    if intent != Operate && intent != Withdraw && intent != Close { return false; }
    var before := store.Snapshot();
    ok := SubmitAppStateTx(cfg, store, su);
    if !ok { store.Rollback(before); }
    StepKeepsInv(cfg, before, SubmitUpdate(su), store.Snapshot());
  }
}
