/** Who has to sign what: the requests of every run that are carried out are backed by their signers. */
module Authority {
  import opened Options
  import opened Sums
  import opened Channels
  import opened Chains
  import opened Packing
  import opened Quorum
  import opened Allocations
  import opened NodeModel
  import opened Invariants
  import opened Runs

  // ---------- Weights ----------

  /** What the participants among these signers weigh together. */
  function SignedWeight(participants: seq<Participant>, signers: set<Wallet>): nat {
    if participants == [] then 0
    else
      var n := |participants| - 1;
      SignedWeight(participants[..n], signers) + if participants[n].wallet in signers then participants[n].weight else 0
  }

  predicate Member(participants: seq<Participant>, w: Wallet) {
    exists i :: 0 <= i < |participants| && participants[i].wallet == w
  }

  lemma {:induction false} SignedWeightWithout(participants: seq<Participant>, signers: set<Wallet>, w: Wallet)
    requires !Member(participants, w)
    ensures SignedWeight(participants, signers - {w}) == SignedWeight(participants, signers)
  {
    if participants != [] {
      var n := |participants| - 1;
      assert participants[n].wallet != w;
      forall i | 0 <= i < n ensures participants[..n][i].wallet != w {
        assert participants[i].wallet != w;
      }
      SignedWeightWithout(participants[..n], signers, w);
    }
  }

  /** It is the weight that signatures are counted with, as participants are distinct. */
  lemma {:induction false} WeightIsSum(participants: seq<Participant>, signers: set<Wallet>)
    requires Quorum.Distinct(participants) && signers <= Weights(participants).Keys
    ensures WeightOf(signers, Weights(participants)) == SignedWeight(participants, signers)
  {
    if participants == [] {
      assert signers == {};
    } else {
      var n := |participants| - 1;
      var p, prefix, rest := participants[n], participants[..n], signers - {participants[n].wallet};
      LastIsNew(participants);
      WeightIsSum(prefix, rest);
      WeightOfSame(rest, Weights(prefix), Weights(participants));
      if p.wallet in signers {
        WeightWithout(signers, Weights(participants), p.wallet);
      } else {
        assert rest == signers;
      }
      SignedWeightWithout(prefix, signers, p.wallet);
    }
  }

  lemma LastIsNew(participants: seq<Participant>)
    requires participants != [] && Quorum.Distinct(participants)
    ensures var n := |participants| - 1;
      !Member(participants[..n], participants[n].wallet) && Quorum.Distinct(participants[..n])
  {
    var n := |participants| - 1;
    forall i | 0 <= i < n ensures participants[..n][i].wallet != participants[n].wallet {
      assert participants[i].wallet != participants[n].wallet;
    }
  }

  lemma MembersWeigh(participants: seq<Participant>, w: Wallet)
    ensures w in Weights(participants) <==> Member(participants, w)
  {
    WeightsKeys(participants);
  }

  /** Every signature is a participant's, and their true weight reaches the quorum. */
  ghost predicate Backed(participants: seq<Participant>, quorum: Weight, signers: seq<Option<Wallet>>) {
    && (forall x :: x in signers ==> x.Some? && Member(participants, x.value))
    && SignedWeight(participants, Signers(signers)) >= quorum
  }

  lemma MetIsBacked(participants: seq<Participant>, quorum: Weight, signers: seq<Option<Wallet>>)
    requires Quorum.Distinct(participants) && QuorumMet(Weights(participants), quorum, signers)
    ensures Backed(participants, quorum, signers)
  {
    AcceptedReachesQuorum(Weights(participants), quorum, signers);
    WeightIsSum(participants, Signers(signers));
    forall x | x in signers ensures x.Some? && Member(participants, x.value) {
      MembersWeigh(participants, x.value);
    }
  }

  /** And, exactly: the weights of the signers are added up in eight bits. */
  predicate Counted(participants: seq<Participant>, quorum: Weight, signers: seq<Option<Wallet>>) {
    && (forall x :: x in signers ==> x.Some? && Member(participants, x.value))
    && SignedWeight(participants, Signers(signers)) % 256 >= quorum
  }

  lemma MetIff(participants: seq<Participant>, quorum: Weight, signers: seq<Option<Wallet>>)
    requires Quorum.Distinct(participants)
    ensures QuorumMet(Weights(participants), quorum, signers) <==> Counted(participants, quorum, signers)
  {
    var weights := Weights(participants);
    forall x | x in signers && x.Some? ensures x.value in weights <==> Member(participants, x.value) {
      MembersWeigh(participants, x.value);
    }
    if AllParticipants(weights, signers) {
      assert Signers(signers) <= weights.Keys;
      WeightIsSum(participants, Signers(signers));
    }
  }

  // ---------- Sessions as they were defined ----------

  predicate DefinedBy(s: Session, def: Definition) {
    && s.application == def.application && s.participants == def.participants
    && s.quorum == def.quorum && s.nonce == def.nonce
  }

  /** The identifier of a session names its definition. */
  lemma SessionIdNames(a: Definition, b: Definition)
    requires SessionIdOf(a) == SessionIdOf(b)
    ensures a == b
  {
    var members := SessionIdOf(a).members;
    assert |members| == |a.participants| == |b.participants|;
    forall i | 0 <= i < |members| ensures a.participants[i] == b.participants[i] {
      assert members[i] == (a.participants[i].wallet, a.participants[i].weight);
      assert members[i] == (b.participants[i].wallet, b.participants[i].weight);
    }
  }

  /** Operation j created the session. */
  ghost predicate CreatedAt(cfg: Config, states: seq<NodeState>, ops: seq<Op>, j: nat, id: Id)
    requires |states| == |ops| + 1 && j < |ops|
  {
    ops[j].CreateSession? && Accepts(cfg, states[j], ops[j]) && id == SessionIdOf(ops[j].definition)
  }

  /** An accepted operation leaves the definition of a session as it is. */
  lemma DefinitionKept(cfg: Config, ns: NodeState, op: Op, ns': NodeState, id: Id, def: Definition)
    requires Step(cfg, ns, op, ns') && id in ns.sessions && DefinedBy(ns.sessions[id], def)
    ensures id in ns'.sessions && DefinedBy(ns'.sessions[id], def)
  {
    if Accepts(cfg, ns, op) {
      StepApplied(cfg, ns, op, ns');
      SessionsStep(cfg, ns, op, ns', id);
    }
  }

  /** An operation that brings in a session creates it. */
  lemma SessionBrought(cfg: Config, ns: NodeState, op: Op, ns': NodeState, id: Id)
    requires Step(cfg, ns, op, ns') && id !in ns.sessions && id in ns'.sessions
    ensures Accepts(cfg, ns, op) && op.CreateSession? && id == SessionIdOf(op.definition)
    ensures var def := op.definition;
      ns'.sessions[id] == Session(def.application, def.participants, def.quorum, def.nonce, Open, 1, op.data)
  {
    StepApplied(cfg, ns, op, ns');
    MovedSessions(cfg, ns, op);
    if id in Touched(op) {
      TouchedKnown(cfg, ns, op, id);
    }
  }

  /** Every stored session was created by an accepted request, and has kept its definition. */
  lemma {:induction false} SessionAsDefined(cfg: Config, states: seq<NodeState>, ops: seq<Op>, n: nat, id: Id)
    returns (j: nat)
    requires Run(cfg, states, ops) && n <= |ops| && id in states[n].sessions
    ensures j < n && CreatedAt(cfg, states, ops, j, id)
    ensures DefinedBy(states[n].sessions[id], ops[j].definition)
  {
    if id in states[n - 1].sessions {
      j := SessionAsDefined(cfg, states, ops, n - 1, id);
      DefinitionKept(cfg, states[n - 1], ops[n - 1], states[n], id, ops[j].definition);
    } else {
      j := n - 1;
      SessionBrought(cfg, states[n - 1], ops[n - 1], states[n], id);
    }
  }

  /** A session is created with different participants, a positive quorum that they reach together,
      an application and a nonce, at version 1; its creation is backed as well. */
  lemma CreationBacked(cfg: Config, states: seq<NodeState>, ops: seq<Op>, j: nat)
    requires Run(cfg, states, ops) && j < |ops| && ops[j].CreateSession? && Accepts(cfg, states[j], ops[j])
    ensures var def, id := ops[j].definition, SessionIdOf(ops[j].definition);
      && (forall a, b :: 0 <= a < b < |def.participants| ==> def.participants[a].wallet != def.participants[b].wallet)
      && 0 < def.quorum <= SignedWeight(def.participants, Weights(def.participants).Keys)
      && |def.participants| <= cfg.maxParticipants && def.application != "" && def.nonce != 0
      && ops[j].allowed && |ops[j].data| <= cfg.maxSessionData
      && 0 < |ops[j].signers| <= |def.participants| && Backed(def.participants, def.quorum, ops[j].signers)
      && id !in states[j].sessions && id in states[j + 1].sessions
      && states[j + 1].sessions[id]
         == Session(def.application, def.participants, def.quorum, def.nonce, Open, 1, ops[j].data)
  {
    var def := ops[j].definition;
    CreationChecked(cfg, states[j], def, ops[j].data, ops[j].signers, ops[j].allowed);
    WeightIsSum(def.participants, Weights(def.participants).Keys);
    MetIsBacked(def.participants, def.quorum, ops[j].signers);
    StepApplied(cfg, states[j], ops[j], states[j + 1]);
    SessionBrought(cfg, states[j], ops[j], states[j + 1], SessionIdOf(def));
  }

  lemma CreationChecked(cfg: Config, ns: NodeState, def: Definition, data: string, signers: seq<Option<Wallet>>,
                        allowed: bool)
    requires AcceptsSession(cfg, ns, def, data, signers, allowed)
    ensures Quorum.Distinct(def.participants) && QuorumMet(Weights(def.participants), def.quorum, signers)
    ensures 0 < def.quorum <= WeightOf(Weights(def.participants).Keys, Weights(def.participants))
    ensures |def.participants| <= cfg.maxParticipants && def.application != "" && def.nonce != 0 && allowed
    ensures |data| <= cfg.maxSessionData && 0 < |signers| <= |def.participants| && SessionIdOf(def) !in ns.sessions
  {}

  // ---------- Updates ----------

  lemma UpdatesChecked(cfg: Config, ns: NodeState, op: Op, su: SignedUpdate)
    requires Accepts(cfg, ns, op) && su in UpdatesOf(op)
    ensures su.update.session in ns.sessions
    ensures var s := ns.sessions[su.update.session];
      && s.status == Open && su.update.version == s.version + 1 && su.allowed
      && 0 < |su.signers| <= |s.participants| && |su.update.data| <= cfg.maxSessionData
      && QuorumMet(Weights(s.participants), s.quorum, su.signers)
  {
    if op.RebalanceSessions? {
      assert RebalanceUpdateOk(cfg, ns, su);
    }
  }

  /** The update is for an open session that is stored, and for its next version; the registry and
      the gateway allow it; and its signers are participants who reach the quorum together. */
  ghost predicate Rightful(cfg: Config, ns: NodeState, su: SignedUpdate) {
    && su.update.session in ns.sessions
    && var s := ns.sessions[su.update.session];
       && s.status == Open && su.update.version == s.version + 1 && su.allowed
       && 0 < |su.signers| <= |s.participants| && |su.update.data| <= cfg.maxSessionData
       && Backed(s.participants, s.quorum, su.signers)
  }

  /** In every run, each update of a session in an accepted request, be it on its own, with a
      deposit or in a batch, is backed by participants whose true weight reaches the quorum. */
  lemma UpdatesBacked(cfg: Config, states: seq<NodeState>, ops: seq<Op>, n: nat, su: SignedUpdate)
    requires Run(cfg, states, ops) && n < |ops| && Accepts(cfg, states[n], ops[n]) && su in UpdatesOf(ops[n])
    ensures Rightful(cfg, states[n], su)
  {
    UpdatesChecked(cfg, states[n], ops[n], su);
    var s := states[n].sessions[su.update.session];
    var j := SessionAsDefined(cfg, states, ops, n, su.update.session);
    CreationBacked(cfg, states, ops, j);
    MetIsBacked(s.participants, s.quorum, su.signers);
  }

  /** The same with the count that is made. */
  ghost predicate Entitled(cfg: Config, ns: NodeState, su: SignedUpdate) {
    && su.update.session in ns.sessions
    && var s := ns.sessions[su.update.session];
       && s.status == Open && su.update.version == s.version + 1 && su.allowed
       && 0 < |su.signers| <= |s.participants| && |su.update.data| <= cfg.maxSessionData
       && Counted(s.participants, s.quorum, su.signers)
  }

  /** In every run an update is authorized exactly if it is entitled. */
  lemma AuthorizedIff(cfg: Config, states: seq<NodeState>, ops: seq<Op>, n: nat, su: SignedUpdate)
    requires Run(cfg, states, ops) && n <= |ops|
    ensures Authorized(cfg, states[n], su) <==> Entitled(cfg, states[n], su)
  {
    if su.update.session in states[n].sessions {
      var s := states[n].sessions[su.update.session];
      var j := SessionAsDefined(cfg, states, ops, n, su.update.session);
      CreationBacked(cfg, states, ops, j);
      MetIff(s.participants, s.quorum, su.signers);
    }
  }

  /** A session is created exactly for an unused definition, with different participants and a
      positive quorum that their weights reach, and with signers who reach it too. */
  lemma SessionAcceptedIff(cfg: Config, ns: NodeState, def: Definition, data: string, signers: seq<Option<Wallet>>,
                           allowed: bool)
    ensures Accepts(cfg, ns, CreateSession(def, data, signers, allowed)) <==>
      && |def.participants| <= cfg.maxParticipants && |data| <= cfg.maxSessionData && allowed
      && def.application != "" && def.nonce != 0 && SessionIdOf(def) !in ns.sessions
      && (forall a, b :: 0 <= a < b < |def.participants| ==> def.participants[a].wallet != def.participants[b].wallet)
      && 0 < def.quorum <= SignedWeight(def.participants, Weights(def.participants).Keys) % 256
      && 0 < |signers| <= |def.participants| && Counted(def.participants, def.quorum, signers)
  {
    if Quorum.Distinct(def.participants) {
      WeightIsSum(def.participants, Weights(def.participants).Keys);
      MetIff(def.participants, def.quorum, signers);
    }
  }

  /** So a request with an update that is not backed leaves the store as it was. */
  lemma UnbackedRefused(cfg: Config, states: seq<NodeState>, ops: seq<Op>, n: nat, su: SignedUpdate)
    requires Run(cfg, states, ops) && n < |ops| && su in UpdatesOf(ops[n]) && !Rightful(cfg, states[n], su)
    ensures states[n + 1] == states[n]
  {
    if Accepts(cfg, states[n], ops[n]) {
      UpdatesBacked(cfg, states, ops, n, su);
    }
    RefusedStays(cfg, states[n], ops[n], states[n + 1]);
  }

  lemma RefusedStays(cfg: Config, ns: NodeState, op: Op, ns': NodeState)
    requires Step(cfg, ns, op, ns') && !Accepts(cfg, ns, op)
    ensures ns' == ns
  {}

  // ---------- Status and data ----------

  /** A session is closed by an accepted close of it, and by nothing else. */
  lemma ClosedByClose(cfg: Config, states: seq<NodeState>, ops: seq<Op>, n: nat, id: Id)
    requires Run(cfg, states, ops) && n < |ops| && id in states[n].sessions
    ensures id in states[n + 1].sessions
    ensures states[n + 1].sessions[id].status == Closed <==>
      || states[n].sessions[id].status == Closed
      || (Accepts(cfg, states[n], ops[n]) && ops[n].SubmitUpdate? && ops[n].su.update.session == id
            && ops[n].su.update.intent == Close)
  {
    if Accepts(cfg, states[n], ops[n]) {
      StepApplied(cfg, states[n], ops[n], states[n + 1]);
      SessionsStep(cfg, states[n], ops[n], states[n + 1], id);
      if id in Touched(ops[n]) {
        ClosingUpdate(cfg, states[n], ops[n], states[n + 1], id);
      }
    } else {
      RefusedStays(cfg, states[n], ops[n], states[n + 1]);
    }
  }

  lemma ClosingUpdate(cfg: Config, ns: NodeState, op: Op, ns': NodeState, id: Id)
    requires Accepts(cfg, ns, op) && id in Touched(op) && id in ns.sessions && id in ns'.sessions
    requires MovedByOp(op, id, ns.sessions[id], ns'.sessions[id])
    ensures ns'.sessions[id].status == Closed <==> op.SubmitUpdate? && op.su.update.intent == Close
  {
    var u :| Updates(op, u) && u.session == id && MovedBy(ns.sessions[id], ns'.sessions[id], u);
    OnlyUpdatesClose(cfg, ns, op, u);
  }

  lemma OnlyUpdatesClose(cfg: Config, ns: NodeState, op: Op, u: Update)
    requires Accepts(cfg, ns, op) && Updates(op, u)
    ensures (op.SubmitUpdate? && op.su.update == u) || u.intent != Close
  {
    if op.RebalanceSessions? {
      var i :| 0 <= i < |op.updates| && op.updates[i].update == u;
      assert RebalanceUpdateOk(cfg, ns, op.updates[i]);
    }
  }

  /** Operation j gave the session this data: it created it, or updated it with some data. */
  ghost predicate GivesData(cfg: Config, ns: NodeState, op: Op, id: Id, data: string) {
    && Accepts(cfg, ns, op)
    && ((op.CreateSession? && id == SessionIdOf(op.definition) && data == op.data)
        || (data != "" && exists su :: su in UpdatesOf(op) && su.update.session == id && su.update.data == data))
  }

  ghost predicate DataGiven(cfg: Config, ns: NodeState, op: Op, id: Id) {
    exists data :: GivesData(cfg, ns, op, id, data)
  }

  lemma DataStep(cfg: Config, ns: NodeState, op: Op, ns': NodeState, id: Id)
    requires Step(cfg, ns, op, ns') && id in ns.sessions && id in ns'.sessions
    ensures DataGiven(cfg, ns, op, id) ==> GivesData(cfg, ns, op, id, ns'.sessions[id].data)
    ensures !DataGiven(cfg, ns, op, id) ==> ns'.sessions[id].data == ns.sessions[id].data
  {
    DataMoves(cfg, ns, op, ns', id);
  }

  lemma DataMoves(cfg: Config, ns: NodeState, op: Op, ns': NodeState, id: Id)
    requires Step(cfg, ns, op, ns') && id in ns.sessions && id in ns'.sessions
    ensures ns'.sessions[id].data == ns.sessions[id].data || GivesData(cfg, ns, op, id, ns'.sessions[id].data)
    ensures forall data :: GivesData(cfg, ns, op, id, data) ==> ns'.sessions[id].data == data
  {
    if Accepts(cfg, ns, op) {
      StepApplied(cfg, ns, op, ns');
      SessionsStep(cfg, ns, op, ns', id);
      forall data | GivesData(cfg, ns, op, id, data) ensures ns'.sessions[id].data == data {
        GivenData(cfg, ns, op, ns', id, data);
      }
      if id in Touched(op) {
        DataFromUpdate(cfg, ns, op, id, ns'.sessions[id]);
      }
    } else {
      RefusedStays(cfg, ns, op, ns');
    }
  }

  lemma DataFromUpdate(cfg: Config, ns: NodeState, op: Op, id: Id, after: Session)
    requires Accepts(cfg, ns, op) && id in ns.sessions && MovedByOp(op, id, ns.sessions[id], after)
    ensures after.data == ns.sessions[id].data || GivesData(cfg, ns, op, id, after.data)
  {
    var u :| Updates(op, u) && u.session == id && MovedBy(ns.sessions[id], after, u);
    var su := SignedOf(op, u);
  }

  lemma SignedOf(op: Op, u: Update) returns (su: SignedUpdate)
    requires Updates(op, u)
    ensures su in UpdatesOf(op) && su.update == u
  {
    if op.RebalanceSessions? {
      var i :| 0 <= i < |op.updates| && op.updates[i].update == u;
      su := op.updates[i];
    } else {
      su := op.su;
    }
  }

  lemma GivenData(cfg: Config, ns: NodeState, op: Op, ns': NodeState, id: Id, data: string)
    requires Step(cfg, ns, op, ns') && id in ns.sessions && id in ns'.sessions && GivesData(cfg, ns, op, id, data)
    ensures ns'.sessions[id].data == data
  {
    if !op.CreateSession? {
      var su :| su in UpdatesOf(op) && su.update.session == id && su.update.data == data;
      StepApplied(cfg, ns, op, ns');
      UpdateSets(cfg, ns, op, ns', su);
    }
  }

  /** The update of a session in an accepted request is what moves it on. */
  lemma UpdateSets(cfg: Config, ns: NodeState, op: Op, ns': NodeState, su: SignedUpdate)
    requires Accepts(cfg, ns, op) && Applied(ns, EffectOf(cfg, ns, op), ns') && su in UpdatesOf(op)
    ensures su.update.session in ns.sessions && su.update.session in ns'.sessions
    ensures MovedBy(ns.sessions[su.update.session], ns'.sessions[su.update.session], su.update)
  {
    var id := su.update.session;
    UpdatesChecked(cfg, ns, op, su);
    UpdateTouches(op, su);
    SessionsStep(cfg, ns, op, ns', id);
    var u :| Updates(op, u) && u.session == id && MovedBy(ns.sessions[id], ns'.sessions[id], u);
    OneUpdateEach(cfg, ns, op, u, su);
  }

  lemma UpdateTouches(op: Op, su: SignedUpdate)
    requires su in UpdatesOf(op)
    ensures su.update.session in Touched(op)
  {}

  lemma OneUpdateEach(cfg: Config, ns: NodeState, op: Op, u: Update, su: SignedUpdate)
    requires Accepts(cfg, ns, op) && Updates(op, u) && su in UpdatesOf(op) && u.session == su.update.session
    ensures u == su.update
  {
    if op.RebalanceSessions? {
      var i :| 0 <= i < |op.updates| && op.updates[i].update == u;
      UpdateForIs(op.updates, su);
      UpdateForIs(op.updates, op.updates[i]);
    }
  }

  /** Operation j gave the session this data, and none has given it any since. */
  ghost predicate LastGiven(cfg: Config, states: seq<NodeState>, ops: seq<Op>, n: nat, id: Id, data: string, j: nat)
    requires |states| == |ops| + 1 && n <= |ops|
  {
    && j < n && GivesData(cfg, states[j], ops[j], id, data)
    && forall l :: j < l < n ==> !DataGiven(cfg, states[l], ops[l], id)
  }

  lemma GivenNow(cfg: Config, states: seq<NodeState>, ops: seq<Op>, n: nat, id: Id, data: string)
    requires |states| == |ops| + 1 && n < |ops| && GivesData(cfg, states[n], ops[n], id, data)
    ensures LastGiven(cfg, states, ops, n + 1, id, data, n)
  {}

  lemma NotGivenNow(cfg: Config, states: seq<NodeState>, ops: seq<Op>, n: nat, id: Id, data: string, j: nat)
    requires |states| == |ops| + 1 && n < |ops| && !DataGiven(cfg, states[n], ops[n], id)
    requires LastGiven(cfg, states, ops, n, id, data, j)
    ensures LastGiven(cfg, states, ops, n + 1, id, data, j)
  {
    forall l | j < l < n + 1 ensures !DataGiven(cfg, states[l], ops[l], id) {
      assert l < n || l == n;
    }
  }

  lemma Creates(cfg: Config, ns: NodeState, op: Op, ns': NodeState, id: Id)
    requires Step(cfg, ns, op, ns') && id !in ns.sessions && id in ns'.sessions
    ensures GivesData(cfg, ns, op, id, ns'.sessions[id].data)
  {
    SessionBrought(cfg, ns, op, ns', id);
  }

  /** A stored session holds the data that was given to it last, with its creation or an update. */
  lemma {:induction false} DataIsLastGiven(cfg: Config, states: seq<NodeState>, ops: seq<Op>, n: nat, id: Id)
    returns (j: nat)
    requires Run(cfg, states, ops) && n <= |ops| && id in states[n].sessions
    ensures LastGiven(cfg, states, ops, n, id, states[n].sessions[id].data, j)
  {
    var ns, op, ns' := states[n - 1], ops[n - 1], states[n];
    if id !in ns.sessions {
      Creates(cfg, ns, op, ns', id);
      GivenNow(cfg, states, ops, n - 1, id, ns'.sessions[id].data);
      j := n - 1;
    } else {
      DataStep(cfg, ns, op, ns', id);
      if DataGiven(cfg, ns, op, id) {
        GivenNow(cfg, states, ops, n - 1, id, ns'.sessions[id].data);
        j := n - 1;
      } else {
        j := DataIsLastGiven(cfg, states, ops, n - 1, id);
        NotGivenNow(cfg, states, ops, n - 1, id, ns'.sessions[id].data, j);
      }
    }
  }

  // ---------- States that users sign ----------

  /** The verdicts on a submitted state: its signature, the channel, the gateway. */
  predicate VerdictsPassed(op: Op) {
    match op
    case SubmitState(p, c) => c.signatureValid && c.channelOpen && c.quiet && c.actionAllowed
    case CoSignEscrow(p, c) => c.signatureValid && c.channelOpen && c.quiet && c.actionAllowed
    case RequestCreation(p, def, c) => c.signatureValid && c.assetSupported && c.validatorsSupported
    case SubmitDeposit(p, su, c) => c.signatureValid && c.channelOpen && su.allowed
    case _ => false
  }

  /** The request submitted the state with the user's signature, which was found valid, and the node
      signed what can be packed. */
  ghost predicate SubmittedBy(cfg: Config, ns: NodeState, op: Op, s: State) {
    && Accepts(cfg, ns, op) && VerdictsPassed(op)
    && Submitted(op).Some? && Submitted(op).value.userSigned
    && s == Submitted(op).value.(nodeSigned := true) && PackLedgers(s, cfg.store).Some?
  }

  lemma SubmittedChecked(cfg: Config, ns: NodeState, op: Op)
    requires Accepts(cfg, ns, op) && Submitted(op).Some?
    ensures VerdictsPassed(op) && Submitted(op).value.userSigned && PackLedgers(Submitted(op).value, cfg.store).Some?
  {}

  lemma AppendedSigned(cfg: Config, ns: NodeState, op: Op, k: Key)
    requires Accepts(cfg, ns, op) && k in EffectOf(cfg, ns, op).appended
    requires EffectOf(cfg, ns, op).appended[k].userSigned
    ensures Submitted(op).Some? && EffectOf(cfg, ns, op).appended[k] == Submitted(op).value.(nodeSigned := true)
  {
    EffectAppends(cfg, ns, op);
    if Submitted(op).Some? {
      SignedOfState(ns, Submitted(op).value, k);
    } else {
      ReleasesUnsigned(ns, op.su.update, k);
    }
  }

  lemma IssuedUnsigned(cur: State, r: Request)
    requires r.ReceiveTransfer? || r.ReleaseFrom?
    ensures !Issued(cur, r).userSigned
  {}

  lemma SignedOfState(ns: NodeState, p: State, k: Key)
    requires k in StateEffect(ns, p, {}).appended && StateEffect(ns, p, {}).appended[k].userSigned
    ensures StateEffect(ns, p, {}).appended[k] == p.(nodeSigned := true)
  {
    IssuedUnsigned(Current(ns, k), Mirror(p));
  }

  lemma ReleasesUnsigned(ns: NodeState, u: Update, k: Key)
    requires u.session in ns.sessions && k in UpdateEffect(ns, u).appended
    ensures !UpdateEffect(ns, u).appended[k].userSigned
  {
    var changes := Delta(CurrentOf(ns, u.session), Target(u));
    IssuedUnsigned(Current(ns, k), Freed(u.session, -Get(changes, Slot(u.session, k.wallet, k.asset))));
  }

  /** A state that was not there before a step has been appended by it. */
  lemma StepBrings(cfg: Config, ns: NodeState, op: Op, ns': NodeState, k: Key, i: nat)
    requires Step(cfg, ns, op, ns') && k in ns'.chains && i < |ns'.chains[k]|
    requires !(k in ns.chains && i < |ns.chains[k]| && ns'.chains[k][i] == ns.chains[k][i])
    ensures Accepts(cfg, ns, op) && k in EffectOf(cfg, ns, op).appended
    ensures ns'.chains[k][i] == EffectOf(cfg, ns, op).appended[k]
  {
    if Accepts(cfg, ns, op) {
      StepApplied(cfg, ns, op, ns');
      AppendedOrOld(ns.chains, EffectOf(cfg, ns, op).appended, k, i);
    } else {
      RefusedStays(cfg, ns, op, ns');
    }
  }

  predicate StoredIn(ns: NodeState, k: Key, i: nat, s: State) {
    k in ns.chains && i < |ns.chains[k]| && ns.chains[k][i] == s
  }

  /** A state that is stored in the end has been brought in by some step. */
  lemma {:induction false} BroughtBy(states: seq<NodeState>, n: nat, k: Key, i: nat, s: State) returns (j: nat)
    requires n < |states| && StoredIn(states[n], k, i, s) && !StoredIn(states[0], k, i, s)
    ensures j < n && !StoredIn(states[j], k, i, s) && StoredIn(states[j + 1], k, i, s)
  {
    if StoredIn(states[n - 1], k, i, s) {
      j := BroughtBy(states, n - 1, k, i, s);
    } else {
      j := n - 1;
    }
  }

  lemma SignedBrought(cfg: Config, ns: NodeState, op: Op, ns': NodeState, k: Key, i: nat, s: State)
    requires Step(cfg, ns, op, ns') && StoredIn(ns', k, i, s) && !StoredIn(ns, k, i, s) && s.userSigned
    ensures SubmittedBy(cfg, ns, op, s)
  {
    StepBrings(cfg, ns, op, ns', k, i);
    AppendedSigned(cfg, ns, op, k);
    SubmittedChecked(cfg, ns, op);
  }

  /** Every stored state with a user's signature was submitted by an accepted request whose
      signature was found valid. */
  lemma SignedWasSubmitted(cfg: Config, states: seq<NodeState>, ops: seq<Op>, n: nat, k: Key, i: nat) returns (j: nat)
    requires Run(cfg, states, ops) && n <= |ops|
    requires k in states[n].chains && i < |states[n].chains[k]| && states[n].chains[k][i].userSigned
    ensures j < n && SubmittedBy(cfg, states[j], ops[j], states[n].chains[k][i])
  {
    var s := states[n].chains[k][i];
    j := BroughtBy(states, n, k, i, s);
    SignedBrought(cfg, states[j], ops[j], states[j + 1], k, i, s);
  }
}
