/** The node as a state machine: what each endpoint accepts, and its effect on the store. */
module NodeModel {
  import opened Options
  import opened Sums
  import opened Decimals
  import opened Channels
  import opened Advancer
  import opened Chains
  import opened Packing
  import opened Transactions
  import opened Quorum
  import opened Allocations

  datatype Status = Open | Closed

  datatype Session = Session(
    application: string,
    participants: seq<Participant>,
    quorum: Weight,
    nonce: nat,
    status: Status,
    version: nat,
    data: string)

  /** Everything the node stores: the states of each user and asset, the channels that were
      created, the app sessions, the app ledger, and the recorded transactions. */
  datatype NodeState = NodeState(
    chains: map<Key, seq<State>>,
    channels: set<Id>,
    sessions: map<Id, Session>,
    entries: seq<Entry>,
    txs: set<Tx>)

  const INITIAL := NodeState(map[], {}, map[], [], {})

  /** What the node is configured with, and the exponent that its database writes a balance with. */
  datatype Config = Config(
    node: Wallet,
    store: AssetStore,
    minChallenge: nat,
    maxChallenge: nat,
    maxParticipants: nat,
    maxSessionData: nat,
    maxSignedUpdates: nat,
    balanceExponent: int)

  function ChainOf(chains: map<Key, seq<State>>, k: Key): seq<State> {
    if k in chains then chains[k] else []
  }

  function Current(ns: NodeState, k: Key): State {
    Last(k, ChainOf(ns.chains, k))
  }

  /** At most one state is appended to each chain. */
  function AppendAll(chains: map<Key, seq<State>>, appended: map<Key, State>): map<Key, seq<State>> {
    map k | k in chains.Keys + appended.Keys ::
      if k in appended then ChainOf(chains, k) + [appended[k]] else ChainOf(chains, k)
  }

  /** What an accepted request does to the store. */
  datatype Effect = Effect(
    appended: map<Key, State>,
    changes: map<Slot, real>,
    sessions: map<Id, Session>,
    channels: set<Id>,
    txs: set<Tx>)

  /** The effect applied: the changes are recorded in the ledger once each, in some order. */
  ghost predicate Applied(ns: NodeState, eff: Effect, ns': NodeState) {
    && ns'.chains == AppendAll(ns.chains, eff.appended)
    && ns'.sessions == ns.sessions + eff.sessions
    && ns'.channels == ns.channels + eff.channels
    && ns'.txs == ns.txs + eff.txs
    && |ns.entries| <= |ns'.entries| && ns'.entries[..|ns.entries|] == ns.entries
    && Lists(ns'.entries[|ns.entries|..], eff.changes)
  }

  // ---------- Channel states ----------

  /** Verdicts of parts that are not modelled: the action gateway, the on-chain status of the
      user's channel and of its last transition, and the signature check. */
  datatype Checks = Checks(actionAllowed: bool, channelOpen: bool, quiet: bool, signatureValid: bool)

  function KeyOf(p: State): Key {
    Key(p.wallet, p.asset)
  }

  /** The node may issue the state that r asks for: the gate is open, and if the state is to
      be signed then it can be packed. */
  predicate CanIssue(cfg: Config, ns: NodeState, k: Key, r: Request)
    requires r.ReceiveTransfer? || r.ReleaseFrom?
  {
    var s := Issued(Current(ns, k), r);
    Gate(ChainOf(ns.chains, k)) && (s.homeChannel.None? || PackLedgers(s, cfg.store).Some?)
  }

  /** A user state that the node co-signs. */
  ghost predicate CoSignable(cfg: Config, ns: NodeState, p: State, signatureValid: bool) {
    && Advances(Current(ns, KeyOf(p)), p, cfg.store.AssetDecimals(p.asset))
    && PackLedgers(p, cfg.store).Some?
    && p.userSigned && signatureValid
  }

  function CoSigned(p: State): State {
    p.(nodeSigned := true)
  }

  /** The receive that mirrors a transfer. */
  function Mirror(p: State): Request {
    ReceiveTransfer(WalletAccount(p.wallet), p.transition.amount, p.transition.txId)
  }

  function ReceiverKey(p: State): Key
    requires p.transition.account.WalletAccount?
  {
    Key(p.transition.account.wallet, p.asset)
  }

  /** The recipient of a transfer is another wallet, and may be issued the mirroring receive. */
  predicate TransferOk(cfg: Config, ns: NodeState, p: State) {
    && p.transition.account.WalletAccount?
    && p.transition.account.wallet != p.wallet
    && CanIssue(cfg, ns, ReceiverKey(p), Mirror(p))
  }

  /** The state issued to the recipient of a transfer. */
  function Received(ns: NodeState, p: State): Option<State> {
    if p.transition.kind == TransferSend && p.transition.account.WalletAccount? then
      Some(Issued(Current(ns, ReceiverKey(p)), Mirror(p)))
    else None
  }

  /** Storing a co-signed state, together with its mirror and its transaction record. */
  function StateEffect(ns: NodeState, p: State, channels: set<Id>): Effect {
    var received := Received(ns, p);
    var own := map[KeyOf(p) := CoSigned(p)];
    var appended := if received.Some? then own[ReceiverKey(p) := received.value] else own;
    var tx := if p.transition.kind == Acknowledgement then None
              else NewTransaction(Some(CoSigned(p)), received, p.transition);
    Effect(appended, map[], map[], channels, if tx.Some? then {tx.value} else {})
  }

  predicate SubmittableKind(kind: Kind) {
    kind == Acknowledgement || kind == HomeDeposit || kind == HomeWithdrawal || kind == TransferSend || kind == Finalize
  }

  /** Submitting a state: escrow transitions, migrations and commits are refused. */
  ghost predicate AcceptsState(cfg: Config, ns: NodeState, p: State, c: Checks) {
    && c.actionAllowed && c.channelOpen && c.quiet
    && SubmittableKind(p.transition.kind)
    && CoSignable(cfg, ns, p, c.signatureValid)
    && (p.transition.kind == TransferSend ==> TransferOk(cfg, ns, p))
  }

  /** The escrow step of the protocol, which validation and node-issued states provide for. */
  ghost predicate AcceptsEscrow(cfg: Config, ns: NodeState, p: State, c: Checks) {
    && c.actionAllowed && c.channelOpen && c.quiet
    && IsEscrowKind(p.transition.kind)
    && CoSignable(cfg, ns, p, c.signatureValid)
  }

  datatype ChannelDefinition = ChannelDefinition(nonce: nat, challenge: nat, validators: string)

  datatype CreationChecks = CreationChecks(assetSupported: bool, validatorsSupported: bool, signatureValid: bool)

  function HomeIdOf(cfg: Config, p: State, def: ChannelDefinition): Id {
    HomeChannelId(cfg.node, p.wallet, p.asset, def.nonce, def.challenge, def.validators)
  }

  predicate CreatableKind(kind: Kind) {
    kind == Acknowledgement || kind == HomeDeposit || kind == HomeWithdrawal || kind == TransferSend
  }

  /** Requesting a channel: only without one, or after finalizing a different one. */
  ghost predicate AcceptsCreation(cfg: Config, ns: NodeState, p: State, def: ChannelDefinition, c: CreationChecks) {
    var cur, id := Current(ns, KeyOf(p)), HomeIdOf(cfg, p, def);
    && def.nonce != 0 && cfg.minChallenge <= def.challenge <= cfg.maxChallenge
    && c.assetSupported && c.validatorsSupported
    && p.homeChannel == Some(id)
    && (cur.homeChannel.Some? ==> cur.transition.kind == Finalize && id != cur.homeChannel.value)
    && CoSignable(cfg, ns, p, c.signatureValid)
    && id !in ns.channels
    && CreatableKind(p.transition.kind)
    && (p.transition.kind == TransferSend ==> TransferOk(cfg, ns, p))
  }

  // ---------- App sessions ----------

  datatype Definition = Definition(application: string, participants: seq<Participant>, quorum: Weight, nonce: nat)

  function SessionIdOf(def: Definition): Id {
    SessionId(def.application, seq(|def.participants|, i requires 0 <= i < |def.participants| =>
      (def.participants[i].wallet, def.participants[i].weight)), def.quorum, def.nonce)
  }

  /** allowed is the verdict of the app registry and the action gateway. */
  ghost predicate AcceptsSession(cfg: Config, ns: NodeState, def: Definition, data: string,
                                 signers: seq<Option<Wallet>>, allowed: bool)
  {
    && |def.participants| <= cfg.maxParticipants
    && 0 < |signers| <= |def.participants|
    && |data| <= cfg.maxSessionData
    && def.application != "" && def.nonce != 0
    && DefinitionValid(def.participants, def.quorum)
    && allowed
    && QuorumMet(Weights(def.participants), def.quorum, signers)
    && SessionIdOf(def) !in ns.sessions
  }

  function SessionEffect(def: Definition, data: string): Effect {
    Effect(map[], map[], map[SessionIdOf(def) := Session(def.application, def.participants, def.quorum, def.nonce,
                                                          Open, 1, data)], {}, {})
  }

  datatype Intent = Operate | Deposit | Withdraw | Close | Rebalance | OtherIntent(code: nat)

  datatype Allocation = Allocation(participant: Wallet, asset: Asset, amount: Decimal)

  datatype Update = Update(session: Id, intent: Intent, version: nat, allocations: seq<Allocation>, data: string)

  /** An update with the wallets recovered from its signatures, and the verdict of the app
      registry and the action gateway. */
  datatype SignedUpdate = SignedUpdate(update: Update, signers: seq<Option<Wallet>>, allowed: bool)

  function SlotOf(session: Id, a: Allocation): Slot {
    Slot(session, a.participant, a.asset)
  }

  /** The submitted amount of every slot that is listed. */
  function Listed(session: Id, allocations: seq<Allocation>): map<Slot, real> {
    if allocations == [] then map[]
    else
      var n := |allocations| - 1;
      Listed(session, allocations[..n])[SlotOf(session, allocations[n]) := allocations[n].amount.value]
  }

  /** The exponent that the amount of every listed slot is written with. */
  function Exponents(session: Id, allocations: seq<Allocation>): map<Slot, int> {
    if allocations == [] then map[]
    else
      var n := |allocations| - 1;
      Exponents(session, allocations[..n])[SlotOf(session, allocations[n]) := allocations[n].amount.exponent]
  }

  predicate NoDuplicates(session: Id, allocations: seq<Allocation>) {
    forall i, j :: 0 <= i < j < |allocations| ==> SlotOf(session, allocations[i]) != SlotOf(session, allocations[j])
  }

  predicate NonNegative(allocations: seq<Allocation>) {
    forall a :: a in allocations ==> a.amount.value >= 0.0
  }

  predicate ForParticipants(allocations: seq<Allocation>, weights: map<Wallet, Weight>) {
    forall a :: a in allocations ==> a.participant in weights
  }

  predicate Precise(allocations: seq<Allocation>, store: AssetStore) {
    forall a :: a in allocations ==>
      store.AssetDecimals(a.asset).Some? && PrecisionValid(a.amount, store.AssetDecimals(a.asset).value)
  }

  function CurrentOf(ns: NodeState, session: Id): map<Slot, real> {
    OfSession(Allocated(ns.entries), session)
  }

  function ListedBy(u: Update): map<Slot, real> {
    Listed(u.session, u.allocations)
  }

  /** What every update needs: an open session, its next version, and a quorum. */
  ghost predicate Authorized(cfg: Config, ns: NodeState, su: SignedUpdate) {
    var u := su.update;
    && |u.data| <= cfg.maxSessionData
    && u.session in ns.sessions
    && var s := ns.sessions[u.session];
       && s.status == Open
       && su.allowed
       && 0 < |su.signers| <= |s.participants|
       && u.version == s.version + 1
       && QuorumMet(Weights(s.participants), s.quorum, su.signers)
  }

  function WeightsIn(ns: NodeState, session: Id): map<Wallet, Weight> {
    if session in ns.sessions then Weights(ns.sessions[session].participants) else map[]
  }

  function Advanced(s: Session, u: Update, status: Status): Session {
    s.(version := s.version + 1, data := if u.data != "" then u.data else s.data, status := status)
  }

  // Operate: the allocations of each asset may be redistributed.

  ghost predicate OperateOk(cfg: Config, ns: NodeState, u: Update) {
    var cur, listed := CurrentOf(ns, u.session), ListedBy(u);
    && ForParticipants(u.allocations, WeightsIn(ns, u.session))
    && NonNegative(u.allocations) && Precise(u.allocations, cfg.store)
    && NoDuplicates(u.session, u.allocations)
    && (forall k :: k in cur && cur[k] != 0.0 ==> k in listed)
    && (forall a :: Sum(OfAsset(listed, a)) == Sum(OfAsset(cur, a)))
  }

  // Withdraw: allocations may only decrease, and the difference is released.

  function Freed(session: Id, amount: real): Request {
    ReleaseFrom(HashAccount(session), Decimal(amount, 0))
  }

  ghost predicate WithdrawOk(cfg: Config, ns: NodeState, u: Update) {
    var cur, listed := CurrentOf(ns, u.session), ListedBy(u);
    && ForParticipants(u.allocations, WeightsIn(ns, u.session))
    && NonNegative(u.allocations)
    && NoDuplicates(u.session, u.allocations)
    && (forall k :: k in listed && listed[k] != 0.0 ==> Get(cur, k) != 0.0)
    && (forall k :: k in cur && cur[k] != 0.0 ==> WithdrawSlotOk(cfg, ns, u, k))
  }

  ghost predicate WithdrawSlotOk(cfg: Config, ns: NodeState, u: Update, k: Slot) {
    var cur, listed, exponents := CurrentOf(ns, u.session), ListedBy(u), Exponents(u.session, u.allocations);
    && k in listed && listed[k] <= Get(cur, k)
    && (listed[k] < Get(cur, k) ==>
          && k in exponents
          && PreciseFor(cfg, k.asset, Difference(cfg, Get(cur, k), listed[k], exponents[k]))
          && CanIssue(cfg, ns, Key(k.wallet, k.asset), Freed(u.session, Get(cur, k) - listed[k])))
  }

  /** What is left of a balance read from the database, as it is written. */
  function Difference(cfg: Config, balance: real, listed: real, exponent: int): Decimal {
    Minus(Decimal(balance, cfg.balanceExponent), Decimal(listed, exponent))
  }

  predicate PreciseFor(cfg: Config, asset: Asset, amount: Decimal) {
    var decimals := cfg.store.AssetDecimals(asset);
    decimals.Some? && PrecisionValid(amount, decimals.value)
  }

  // Close: the listed allocations are the current ones, and all of them are released.

  ghost predicate CloseOk(cfg: Config, ns: NodeState, u: Update) {
    var cur, listed := CurrentOf(ns, u.session), ListedBy(u);
    && ForParticipants(u.allocations, WeightsIn(ns, u.session))
    && NonNegative(u.allocations)
    && NoDuplicates(u.session, u.allocations)
    && (forall k :: k in cur && cur[k] != 0.0 ==> k in listed && listed[k] == cur[k])
    && (forall k :: k in listed && listed[k] != 0.0 ==> Get(cur, k) != 0.0)
    && (forall k :: k in cur && cur[k] != 0.0 ==> CanIssue(cfg, ns, Key(k.wallet, k.asset), Freed(u.session, cur[k])))
  }

  /** The amounts the session is to hold after an operate, withdraw or close. */
  function Target(u: Update): map<Slot, real> {
    if u.intent == Close then map[] else ListedBy(u)
  }

  /** The chains of the wallets whose slots change. */
  function KeysOf(changes: map<Slot, real>): set<Key> {
    set k | k in changes :: Key(k.wallet, k.asset)
  }

  /** The release of what a participant's slot loses. */
  function ReleaseOf(ns: NodeState, session: Id, changes: map<Slot, real>, k: Key): State {
    Issued(Current(ns, k), Freed(session, -Get(changes, Slot(session, k.wallet, k.asset))))
  }

  /** For every slot that loses funds, a release of exactly that amount to its participant. */
  function Releases(ns: NodeState, session: Id, changes: map<Slot, real>): map<Key, State> {
    map k | k in KeysOf(changes) :: ReleaseOf(ns, session, changes, k)
  }

  function ReleaseTxs(released: map<Key, State>): set<Tx> {
    set k | k in released && NewTransaction(None, Some(released[k]), released[k].transition).Some?
      :: NewTransaction(None, Some(released[k]), released[k].transition).value
  }

  ghost predicate AcceptsUpdate(cfg: Config, ns: NodeState, su: SignedUpdate) {
    && Authorized(cfg, ns, su)
    && match su.update.intent
       case Operate => OperateOk(cfg, ns, su.update)
       case Withdraw => WithdrawOk(cfg, ns, su.update)
       case Close => CloseOk(cfg, ns, su.update)
       case _ => false
  }

  /** Operate redistributes; withdraw and close release what leaves the session. */
  function UpdateEffect(ns: NodeState, u: Update): Effect
    requires u.session in ns.sessions
  {
    var changes := Delta(CurrentOf(ns, u.session), Target(u));
    var released := if u.intent == Operate then map[] else Releases(ns, u.session, changes);
    var status := if u.intent == Close then Closed else Open;
    Effect(released, changes, map[u.session := Advanced(ns.sessions[u.session], u, status)], {}, ReleaseTxs(released))
  }

  // Deposit: the commit of a user state is added to allocations of its asset.

  ghost predicate DepositOk(cfg: Config, ns: NodeState, p: State, u: Update) {
    var cur, listed := CurrentOf(ns, u.session), ListedBy(u);
    && NonNegative(u.allocations) && Precise(u.allocations, cfg.store)
    && NoDuplicates(u.session, u.allocations)
    && (forall k :: k in listed ==> DepositSlotOk(ns, p, u, k))
    && (forall k :: k in cur && cur[k] != 0.0 && k.asset != p.asset ==> k in listed && listed[k] == cur[k])
    && Sum(Delta(cur, cur + listed)) == p.transition.amount.value
  }

  predicate DepositSlotOk(ns: NodeState, p: State, u: Update, k: Slot) {
    var held, amount := Get(CurrentOf(ns, u.session), k), Get(ListedBy(u), k);
    amount >= held && (amount > held ==> k.wallet in WeightsIn(ns, u.session) && k.asset == p.asset)
  }

  ghost predicate AcceptsDeposit(cfg: Config, ns: NodeState, p: State, su: SignedUpdate, c: Checks) {
    && Authorized(cfg, ns, su) && su.update.intent == Deposit
    && p.transition.kind == Commit && c.channelOpen
    && p.transition.account == HashAccount(su.update.session)
    && (ChainOf(ns.chains, KeyOf(p)) != [] ==> c.quiet)
    && CoSignable(cfg, ns, p, c.signatureValid)
    && DepositOk(cfg, ns, p, su.update)
  }

  function DepositEffect(ns: NodeState, p: State, u: Update): Effect
    requires u.session in ns.sessions
  {
    var cur := CurrentOf(ns, u.session);
    StateEffect(ns, p, {}).(changes := Delta(cur, cur + ListedBy(u)),
                            sessions := map[u.session := Advanced(ns.sessions[u.session], u, Open)])
  }

  // Rebalance: allocations of several sessions are redistributed at once.

  predicate DistinctSessions(updates: seq<SignedUpdate>) {
    forall i, j :: 0 <= i < j < |updates| ==> updates[i].update.session != updates[j].update.session
  }

  function SessionsOf(updates: seq<SignedUpdate>): set<Id> {
    set su | su in updates :: su.update.session
  }

  /** Everything that the sessions of a batch hold. */
  function CurrentOfAll(ns: NodeState, sessions: set<Id>): map<Slot, real> {
    map k | k in Allocated(ns.entries) && k.session in sessions :: Allocated(ns.entries)[k]
  }

  function ListedByAll(updates: seq<SignedUpdate>): map<Slot, real> {
    if updates == [] then map[]
    else ListedByAll(updates[..|updates| - 1]) + ListedBy(updates[|updates| - 1].update)
  }

  function BatchChanges(ns: NodeState, updates: seq<SignedUpdate>): map<Slot, real> {
    Delta(CurrentOfAll(ns, SessionsOf(updates)), ListedByAll(updates))
  }

  /** The amounts given to slots that are present at zero. */
  function Twice(cur: map<Slot, real>, target: map<Slot, real>): map<Slot, real> {
    map k | k in cur && cur[k] == 0.0 && Get(target, k) != 0.0 :: Get(target, k)
  }

  /** Those of a batch, which the tally counts twice. */
  function CountedTwice(ns: NodeState, updates: seq<SignedUpdate>): map<Slot, real> {
    Twice(CurrentOfAll(ns, SessionsOf(updates)), ListedByAll(updates))
  }

  /** The total that the conservation check compares with zero. */
  ghost function Tally(ns: NodeState, updates: seq<SignedUpdate>, asset: Asset): real {
    Sum(OfAsset(BatchChanges(ns, updates), asset)) + Sum(OfAsset(CountedTwice(ns, updates), asset))
  }

  ghost predicate RebalanceUpdateOk(cfg: Config, ns: NodeState, su: SignedUpdate) {
    && su.update.intent == Rebalance
    && Authorized(cfg, ns, su)
    && ForParticipants(su.update.allocations, WeightsIn(ns, su.update.session))
    && NonNegative(su.update.allocations)
    && NoDuplicates(su.update.session, su.update.allocations)
  }

  ghost predicate AcceptsRebalance(cfg: Config, ns: NodeState, updates: seq<SignedUpdate>) {
    && 2 <= |updates| <= cfg.maxSignedUpdates
    && DistinctSessions(updates)
    && (forall su :: su in updates ==> RebalanceUpdateOk(cfg, ns, su))
    && (forall a :: Tally(ns, updates, a) == 0.0)
  }

  function BatchOf(updates: seq<SignedUpdate>): Id {
    BatchId(seq(|updates|, i requires 0 <= i < |updates| => (updates[i].update.session, updates[i].update.version)))
  }

  /** What a session gains of an asset in a batch. */
  ghost function NetGain(changes: map<Slot, real>, session: Id, asset: Asset): real {
    SessionBalance(changes, session, asset)
  }

  /** Between the batch account and a session, in the direction of the session's net gain. */
  function RebalanceTx(batch: Id, session: Id, asset: Asset, net: real): Tx {
    var account := HashAccount(session);
    Tx(RebalanceId(batch, session, asset), asset, Rebalanced,
       if net > 0.0 then HashAccount(batch) else account,
       if net > 0.0 then account else HashAccount(batch),
       None, None, if net > 0.0 then net else -net)
  }

  ghost function RebalanceTxs(batch: Id, changes: map<Slot, real>): set<Tx> {
    set k | k in changes && NetGain(changes, k.session, k.asset) != 0.0
      :: RebalanceTx(batch, k.session, k.asset, NetGain(changes, k.session, k.asset))
  }

  /** The update of one session in a batch. */
  ghost function UpdateFor(updates: seq<SignedUpdate>, session: Id): (u: Update)
    requires session in SessionsOf(updates)
    ensures u.session == session && exists su :: su in updates && su.update == u
  {
    var su :| su in updates && su.update.session == session;
    su.update
  }

  ghost function AdvancedAll(ns: NodeState, updates: seq<SignedUpdate>): map<Id, Session> {
    map id | id in SessionsOf(updates) && id in ns.sessions :: Advanced(ns.sessions[id], UpdateFor(updates, id), Open)
  }

  ghost function RebalanceEffect(ns: NodeState, updates: seq<SignedUpdate>): Effect {
    var changes := BatchChanges(ns, updates);
    Effect(map[], changes, AdvancedAll(ns, updates), {}, RebalanceTxs(BatchOf(updates), changes))
  }

  // ---------- The state machine ----------

  datatype Op =
    | SubmitState(p: State, checks: Checks)
    | CoSignEscrow(p: State, checks: Checks)
    | RequestCreation(p: State, channel: ChannelDefinition, creationChecks: CreationChecks)
    | CreateSession(definition: Definition, data: string, signers: seq<Option<Wallet>>, allowed: bool)
    | SubmitUpdate(su: SignedUpdate)
    | SubmitDeposit(p: State, su: SignedUpdate, checks: Checks)
    | RebalanceSessions(updates: seq<SignedUpdate>)

  /** The user state that an operation submits. */
  function Submitted(op: Op): Option<State> {
    match op
    case SubmitState(p, c) => Some(p)
    case CoSignEscrow(p, c) => Some(p)
    case RequestCreation(p, def, c) => Some(p)
    case SubmitDeposit(p, su, c) => Some(p)
    case _ => None
  }

  /** The signed updates of sessions that an operation submits. */
  function UpdatesOf(op: Op): seq<SignedUpdate> {
    match op
    case SubmitUpdate(su) => [su]
    case SubmitDeposit(p, su, c) => [su]
    case RebalanceSessions(updates) => updates
    case _ => []
  }

  ghost predicate Accepts(cfg: Config, ns: NodeState, op: Op) {
    match op
    case SubmitState(p, c) => AcceptsState(cfg, ns, p, c)
    case CoSignEscrow(p, c) => AcceptsEscrow(cfg, ns, p, c)
    case RequestCreation(p, def, c) => AcceptsCreation(cfg, ns, p, def, c)
    case CreateSession(def, data, signers, allowed) => AcceptsSession(cfg, ns, def, data, signers, allowed)
    case SubmitUpdate(su) => AcceptsUpdate(cfg, ns, su)
    case SubmitDeposit(p, su, c) => AcceptsDeposit(cfg, ns, p, su, c)
    case RebalanceSessions(updates) => AcceptsRebalance(cfg, ns, updates)
  }

  ghost function EffectOf(cfg: Config, ns: NodeState, op: Op): Effect
    requires Accepts(cfg, ns, op)
  {
    match op
    case SubmitState(p, c) => StateEffect(ns, p, {})
    case CoSignEscrow(p, c) => StateEffect(ns, p, {})
    case RequestCreation(p, def, c) => StateEffect(ns, p, {HomeIdOf(cfg, p, def)})
    case CreateSession(def, data, signers, allowed) => SessionEffect(def, data)
    case SubmitUpdate(su) => UpdateEffect(ns, su.update)
    case SubmitDeposit(p, su, c) => DepositEffect(ns, p, su.update)
    case RebalanceSessions(updates) => RebalanceEffect(ns, updates)
  }

  /** A request is either carried out in full or leaves the store as it was. */
  ghost predicate Step(cfg: Config, ns: NodeState, op: Op, ns': NodeState) {
    if Accepts(cfg, ns, op) then Applied(ns, EffectOf(cfg, ns, op), ns') else ns' == ns
  }
}
