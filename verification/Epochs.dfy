/** Which epochs a home channel is used in: a channel stays in one epoch of one user exactly if
    no user opens an epoch with a channel that is in use already. */
module Epochs {
  import opened Options
  import opened Sums
  import opened Channels
  import opened Chains
  import opened Allocations
  import opened NodeModel
  import opened Invariants
  import opened Runs
  import opened Events

  /** A state of the user's chain, in this epoch, is on this home channel. */
  ghost predicate Uses(chains: map<Key, seq<State>>, k: Key, epoch: nat, id: Id) {
    k in chains && exists i ::
      0 <= i < |chains[k]| && chains[k][i].homeChannel == Some(id) && chains[k][i].epoch == epoch
  }

  ghost predicate InUse(chains: map<Key, seq<State>>, id: Id) {
    exists k, epoch :: Uses(chains, k, epoch, id)
  }

  /** Every home channel is used in a single epoch of a single chain. */
  ghost predicate OneEpochEach(chains: map<Key, seq<State>>) {
    forall id, k, e, j, f :: Uses(chains, k, e, id) && Uses(chains, j, f, id) ==> k == j && e == f
  }

  /** The operation submits the first state of an epoch that is on a channel. */
  predicate Opens(ns: NodeState, op: Op) {
    Submitted(op).Some? && NextState(Current(ns, KeyOf(Submitted(op).value))).homeChannel.None?
  }

  /** If it opens an epoch, then with a channel that nobody has used. */
  ghost predicate OpensFresh(ns: NodeState, op: Op) {
    Opens(ns, op) && Submitted(op).value.homeChannel.Some? ==> !InUse(ns.chains, Submitted(op).value.homeChannel.value)
  }

  /** What the accepted operation adds to the uses, if it opens an epoch. */
  ghost predicate OpensWith(ns: NodeState, op: Op, k: Key, epoch: nat, id: Id) {
    && Opens(ns, op)
    && var p := Submitted(op).value;
       k == KeyOf(p) && epoch == NextState(Current(ns, k)).epoch && p.homeChannel == Some(id)
  }

  // ---------- One step ----------

  /** An appended state is on the channel of its chain, if there is one; otherwise it is the
      submitted state, or on no channel. */
  lemma AppendedOn(cfg: Config, ns: NodeState, op: Op, k: Key)
    requires Inv(cfg, ns) && Accepts(cfg, ns, op) && k in EffectOf(cfg, ns, op).appended
    ensures var s, next := EffectOf(cfg, ns, op).appended[k], NextState(Current(ns, k));
      && s.epoch == next.epoch
      && (next.homeChannel.Some? ==> s.homeChannel == next.homeChannel)
      && (next.homeChannel.None? && s.homeChannel.Some? ==> OpensWith(ns, op, k, s.epoch, s.homeChannel.value))
  {
    AcceptedAppends(cfg, ns, op);
    CurrentSound(cfg, ns, k);
    var s := EffectOf(cfg, ns, op).appended[k];
    AppendedMoves(cfg, ns, k, s);
    if NextState(Current(ns, k)).homeChannel.None? && s.homeChannel.Some? {
      EffectAppends(cfg, ns, op);
      AppendedBy(ns, op, k);
    }
  }

  lemma AppendedMoves(cfg: Config, ns: NodeState, k: Key, s: State)
    requires ChainsValid(cfg, ns) && Extends(k, ChainOf(ns.chains, k), s, DecimalsOf(cfg, k))
    ensures var next := NextState(Current(ns, k));
      s.epoch == next.epoch && (next.homeChannel.Some? ==> s.homeChannel == next.homeChannel)
  {
    CurrentSound(cfg, ns, k);
    var r := StepMoves(k, ChainOf(ns.chains, k), s, DecimalsOf(cfg, k));
    MovesKeeps(Current(ns, k), s, r);
  }

  lemma AppendedBy(ns: NodeState, op: Op, k: Key)
    requires k in AppendedOf(ns, op) && NextState(Current(ns, k)).homeChannel.None?
    ensures var s := AppendedOf(ns, op)[k];
      s.homeChannel.Some? ==>
        Submitted(op).Some? && k == KeyOf(Submitted(op).value) && s.homeChannel == Submitted(op).value.homeChannel
  {
    if Submitted(op).Some? {
      StateAppendedBy(ns, Submitted(op).value, k);
    } else {
      ReleaseOnNone(ns, op.su.update, k);
    }
  }

  lemma ReleaseOnNone(ns: NodeState, u: Update, k: Key)
    requires u.session in ns.sessions && k in UpdateEffect(ns, u).appended
    requires NextState(Current(ns, k)).homeChannel.None?
    ensures UpdateEffect(ns, u).appended[k].homeChannel.None?
  {
    ReleasedOnNone(ns, u.session, Delta(CurrentOf(ns, u.session), Target(u)), k);
  }

  lemma ReleasedOnNone(ns: NodeState, session: Id, changes: map<Slot, real>, k: Key)
    requires k in Releases(ns, session, changes) && NextState(Current(ns, k)).homeChannel.None?
    ensures Releases(ns, session, changes)[k].homeChannel.None?
  {
    var freed := Freed(session, -Get(changes, Slot(session, k.wallet, k.asset)));
    ReleaseAt(ns, session, changes, k, freed);
    IssuedOnNone(Current(ns, k), freed);
  }

  lemma IssuedOnNone(cur: State, r: Request)
    requires (r.ReceiveTransfer? || r.ReleaseFrom?) && NextState(cur).homeChannel.None?
    ensures Issued(cur, r).homeChannel.None?
  {}

  lemma StateAppendedBy(ns: NodeState, p: State, k: Key)
    requires k in StateEffect(ns, p, {}).appended && NextState(Current(ns, k)).homeChannel.None?
    ensures var s := StateEffect(ns, p, {}).appended[k];
      s.homeChannel.Some? ==> k == KeyOf(p) && s.homeChannel == p.homeChannel
  {
    if p.transition.kind == TransferSend && p.transition.account.WalletAccount? && k == ReceiverKey(p) {
      IssuedOnNone(Current(ns, k), Mirror(p));
    }
  }

  /** The submitted state of an accepted operation is appended to its own chain. */
  lemma SubmittedAppended(cfg: Config, ns: NodeState, op: Op)
    requires Accepts(cfg, ns, op) && Submitted(op).Some?
    ensures var p, appended := Submitted(op).value, EffectOf(cfg, ns, op).appended;
      KeyOf(p) in appended && appended[KeyOf(p)] == CoSigned(p) && p.homeChannel.Some?
  {
    EffectAppends(cfg, ns, op);
    OwnAppended(cfg, ns, Submitted(op).value);
    AcceptedOnChannel(cfg, ns, op);
  }

  lemma AcceptedOnChannel(cfg: Config, ns: NodeState, op: Op)
    requires Accepts(cfg, ns, op) && Submitted(op).Some?
    ensures Submitted(op).value.homeChannel.Some?
    ensures Submitted(op).value.transition.kind == TransferSend ==> TransferOk(cfg, ns, Submitted(op).value)
  {}

  lemma OwnAppended(cfg: Config, ns: NodeState, p: State)
    requires p.transition.kind == TransferSend ==> TransferOk(cfg, ns, p)
    ensures var appended := StateEffect(ns, p, {}).appended;
      KeyOf(p) in appended && appended[KeyOf(p)] == CoSigned(p)
  {}

  /** Of a state on a channel, the next one of the same epoch is on it as well. */
  lemma CurrentUses(ns: NodeState, k: Key, id: Id)
    requires NextState(Current(ns, k)).homeChannel == Some(id)
    ensures Uses(ns.chains, k, NextState(Current(ns, k)).epoch, id)
  {
    var chain := ChainOf(ns.chains, k);
    assert chain != [] && chain[|chain| - 1] == Current(ns, k);
  }

  lemma StepChains(cfg: Config, ns: NodeState, op: Op, ns': NodeState)
    requires Accepts(cfg, ns, op) && Step(cfg, ns, op, ns')
    ensures ns'.chains == AppendAll(ns.chains, EffectOf(cfg, ns, op).appended)
  {}

  predicate AppendsUse(appended: map<Key, State>, k: Key, epoch: nat, id: Id) {
    k in appended && appended[k].homeChannel == Some(id) && appended[k].epoch == epoch
  }

  lemma AppendedUse(cfg: Config, ns: NodeState, op: Op, k: Key, epoch: nat, id: Id)
    requires Inv(cfg, ns) && Accepts(cfg, ns, op) && AppendsUse(EffectOf(cfg, ns, op).appended, k, epoch, id)
    ensures Uses(ns.chains, k, epoch, id) || OpensWith(ns, op, k, epoch, id)
  {
    AppendedOn(cfg, ns, op, k);
    if NextState(Current(ns, k)).homeChannel.Some? {
      CurrentUses(ns, k, id);
    }
  }

  lemma OpenedUse(cfg: Config, ns: NodeState, op: Op, k: Key, epoch: nat, id: Id)
    requires Inv(cfg, ns) && Accepts(cfg, ns, op) && OpensWith(ns, op, k, epoch, id)
    ensures AppendsUse(EffectOf(cfg, ns, op).appended, k, epoch, id)
  {
    SubmittedAppended(cfg, ns, op);
    AppendedOn(cfg, ns, op, k);
  }

  /** An accepted operation adds at most one use: that of the state that opens an epoch. */
  lemma UsesStep(cfg: Config, ns: NodeState, op: Op, ns': NodeState, k: Key, epoch: nat, id: Id)
    requires Inv(cfg, ns) && Accepts(cfg, ns, op) && Step(cfg, ns, op, ns')
    ensures Uses(ns'.chains, k, epoch, id) <==> Uses(ns.chains, k, epoch, id) || OpensWith(ns, op, k, epoch, id)
  {
    StepChains(cfg, ns, op, ns');
    AppendedUses(ns.chains, EffectOf(cfg, ns, op).appended, k, epoch, id);
    if AppendsUse(EffectOf(cfg, ns, op).appended, k, epoch, id) {
      AppendedUse(cfg, ns, op, k, epoch, id);
    }
    if OpensWith(ns, op, k, epoch, id) {
      OpenedUse(cfg, ns, op, k, epoch, id);
    }
  }

  lemma AppendedUses(chains: map<Key, seq<State>>, appended: map<Key, State>, k: Key, epoch: nat, id: Id)
    ensures Uses(AppendAll(chains, appended), k, epoch, id) <==>
            Uses(chains, k, epoch, id) || AppendsUse(appended, k, epoch, id)
  {
    var after := AppendAll(chains, appended);
    if k in after {
      var chain := ChainOf(chains, k);
      if k in appended {
        assert after[k][|chain|] == appended[k];
      }
      if i: nat :| i < |after[k]| && after[k][i].homeChannel == Some(id) && after[k][i].epoch == epoch {
        assert i < |chain| ==> chain[i] == after[k][i];
      }
      if k in chains {
        forall i | 0 <= i < |chain| ensures after[k][i] == chain[i] {}
      }
    }
  }

  /** No state of an epoch is on a channel while the next one is on none. */
  lemma OpensUnused(cfg: Config, ns: NodeState, k: Key, id: Id)
    requires ChainsValid(cfg, ns) && NextState(Current(ns, k)).homeChannel.None?
    ensures !Uses(ns.chains, k, NextState(Current(ns, k)).epoch, id)
  {
    var epoch := NextState(Current(ns, k)).epoch;
    if Uses(ns.chains, k, epoch, id) {
      var chain, decimals := ns.chains[k], DecimalsOf(cfg, k);
      var i :| 0 <= i < |chain| && chain[i].homeChannel == Some(id) && chain[i].epoch == epoch;
      var last := |chain| - 1;
      assert chain[last] == Current(ns, k);
      if i < last {
        ChainOrdered(k, chain, i, last, decimals);
      }
      if Current(ns, k).transition.kind != Finalize {
        HomeChannelFixed(k, chain, i, last, decimals);
      }
    }
  }

  lemma OneMoreUse(chains: map<Key, seq<State>>, chains': map<Key, seq<State>>, k: Key, epoch: nat, id: Id)
    requires !Uses(chains, k, epoch, id)
    requires forall j, e, c :: Uses(chains', j, e, c) <==> Uses(chains, j, e, c) || (j == k && e == epoch && c == id)
    ensures OneEpochEach(chains') <==> OneEpochEach(chains) && !InUse(chains, id)
  {
    assert Uses(chains', k, epoch, id);
    if OneEpochEach(chains) && !InUse(chains, id) {
      forall j, e | Uses(chains', j, e, id) ensures j == k && e == epoch {}
    }
  }

  lemma SameUses(chains: map<Key, seq<State>>, chains': map<Key, seq<State>>)
    requires forall j, e, c :: Uses(chains', j, e, c) <==> Uses(chains, j, e, c)
    ensures OneEpochEach(chains') <==> OneEpochEach(chains)
  {}

  lemma AcceptedUses(cfg: Config, ns: NodeState, op: Op, ns': NodeState)
    requires Inv(cfg, ns) && Accepts(cfg, ns, op) && Step(cfg, ns, op, ns')
    ensures forall k, epoch, id ::
      Uses(ns'.chains, k, epoch, id) <==> Uses(ns.chains, k, epoch, id) || OpensWith(ns, op, k, epoch, id)
  {
    forall k, epoch, id
      ensures Uses(ns'.chains, k, epoch, id) <==> Uses(ns.chains, k, epoch, id) || OpensWith(ns, op, k, epoch, id)
    {
      UsesStep(cfg, ns, op, ns', k, epoch, id);
    }
  }

  lemma AcceptedOneEpoch(ns: NodeState, op: Op, ns': NodeState)
    requires forall k, epoch, id ::
      Uses(ns'.chains, k, epoch, id) <==> Uses(ns.chains, k, epoch, id) || OpensWith(ns, op, k, epoch, id)
    requires Opens(ns, op) ==> Submitted(op).value.homeChannel.Some?
    requires Opens(ns, op) ==>
      var p := Submitted(op).value;
      !Uses(ns.chains, KeyOf(p), NextState(Current(ns, KeyOf(p))).epoch, p.homeChannel.value)
    ensures OneEpochEach(ns'.chains) <==> OneEpochEach(ns.chains) && OpensFresh(ns, op)
  {
    if Opens(ns, op) {
      var p := Submitted(op).value;
      OneMoreUse(ns.chains, ns'.chains, KeyOf(p), NextState(Current(ns, KeyOf(p))).epoch, p.homeChannel.value);
    } else {
      SameUses(ns.chains, ns'.chains);
    }
  }

  /** So an accepted operation keeps the channels apart exactly if it opens no epoch with a
      channel in use. */
  lemma OneEpochStep(cfg: Config, ns: NodeState, op: Op, ns': NodeState)
    requires Inv(cfg, ns) && Step(cfg, ns, op, ns')
    ensures OneEpochEach(ns'.chains) <==> OneEpochEach(ns.chains) && (Accepts(cfg, ns, op) ==> OpensFresh(ns, op))
  {
    if Accepts(cfg, ns, op) {
      AcceptedUses(cfg, ns, op, ns');
      if Opens(ns, op) {
        var p := Submitted(op).value;
        SubmittedAppended(cfg, ns, op);
        OpensUnused(cfg, ns, KeyOf(p), p.homeChannel.value);
      }
      AcceptedOneEpoch(ns, op, ns');
    } else {
      Refused(cfg, ns, op, ns');
    }
  }

  lemma Refused(cfg: Config, ns: NodeState, op: Op, ns': NodeState)
    requires Step(cfg, ns, op, ns') && !Accepts(cfg, ns, op)
    ensures ns' == ns
  {}

  /** Up to here, no accepted operation opened an epoch with a channel in use. */
  ghost predicate FreshUntil(cfg: Config, states: seq<NodeState>, ops: seq<Op>, n: nat)
    requires n <= |ops| && |states| == |ops| + 1
  {
    forall i :: 0 <= i < n && Accepts(cfg, states[i], ops[i]) ==> OpensFresh(states[i], ops[i])
  }

  // ---------- Runs ----------

  lemma RunOneEpochStep(cfg: Config, states: seq<NodeState>, ops: seq<Op>, n: nat)
    requires Run(cfg, states, ops) && n < |ops|
    ensures OneEpochEach(states[n + 1].chains)
       <==> OneEpochEach(states[n].chains) && (Accepts(cfg, states[n], ops[n]) ==> OpensFresh(states[n], ops[n]))
  {
    RunInv(cfg, states, ops, n);
    OneEpochStep(cfg, states[n], ops[n], states[n + 1]);
  }

  /** What holds after each step exactly if it held before and the step is fine holds in the end
      exactly if all steps are fine. */
  lemma {:induction false} AllFine(states: seq<NodeState>, fine: seq<bool>, n: nat)
    requires |states| == |fine| + 1 && n <= |fine| && OneEpochEach(states[0].chains)
    requires forall i :: 0 <= i < |fine| ==>
      (OneEpochEach(states[i + 1].chains) <==> OneEpochEach(states[i].chains) && fine[i])
    ensures OneEpochEach(states[n].chains) <==> forall i :: 0 <= i < n ==> fine[i]
  {
    if n > 0 {
      AllFine(states, fine, n - 1);
      assert OneEpochEach(states[(n - 1) + 1].chains) <==> OneEpochEach(states[n - 1].chains) && fine[n - 1];
    }
  }

  ghost function Fine(cfg: Config, states: seq<NodeState>, ops: seq<Op>): seq<bool>
    requires |states| == |ops| + 1
  {
    seq(|ops|, i requires 0 <= i < |ops| => Accepts(cfg, states[i], ops[i]) ==> OpensFresh(states[i], ops[i]))
  }

  lemma FineIsFresh(cfg: Config, states: seq<NodeState>, ops: seq<Op>, n: nat)
    requires |states| == |ops| + 1 && n <= |ops|
    ensures FreshUntil(cfg, states, ops, n) <==> forall i :: 0 <= i < n ==> Fine(cfg, states, ops)[i]
  {
    var fine := Fine(cfg, states, ops);
    forall i | 0 <= i < n ensures fine[i] <==> (Accepts(cfg, states[i], ops[i]) ==> OpensFresh(states[i], ops[i])) {}
  }

  /** In every run, each home channel is used in a single epoch of a single user and asset if and
      only if no accepted operation opened an epoch with a channel that was in use. */
  lemma OneEpochIff(cfg: Config, states: seq<NodeState>, ops: seq<Op>, n: nat)
    requires Run(cfg, states, ops) && n <= |ops|
    ensures OneEpochEach(states[n].chains) <==> FreshUntil(cfg, states, ops, n)
  {
    var fine := Fine(cfg, states, ops);
    forall i | 0 <= i < |fine|
      ensures OneEpochEach(states[i + 1].chains) <==> OneEpochEach(states[i].chains) && fine[i]
    {
      RunOneEpochStep(cfg, states, ops, i);
    }
    AllFine(states, fine, n);
    FineIsFresh(cfg, states, ops, n);
  }

  /** Every channel in use has been created, if epochs are only opened by creating one. */
  ghost predicate UsesCreated(ns: NodeState) {
    forall id :: InUse(ns.chains, id) ==> id in ns.channels
  }

  lemma CreatedStep(cfg: Config, ns: NodeState, op: Op, ns': NodeState)
    requires Inv(cfg, ns) && Step(cfg, ns, op, ns') && UsesCreated(ns)
    requires Accepts(cfg, ns, op) && Opens(ns, op) ==> op.RequestCreation?
    ensures UsesCreated(ns') && (Accepts(cfg, ns, op) ==> OpensFresh(ns, op))
  {
    if Accepts(cfg, ns, op) {
      StepApplied(cfg, ns, op, ns');
      forall id | InUse(ns'.chains, id) ensures id in ns'.channels {
        var k, epoch :| Uses(ns'.chains, k, epoch, id);
        UsesStep(cfg, ns, op, ns', k, epoch, id);
        if Uses(ns.chains, k, epoch, id) {
          assert InUse(ns.chains, id);
        }
      }
    }
  }

  /** If the operation opens an epoch, it creates a channel. */
  ghost predicate OpensByCreation(cfg: Config, ns: NodeState, op: Op) {
    Accepts(cfg, ns, op) && Opens(ns, op) ==> op.RequestCreation?
  }

  lemma {:induction false} CreationsFine(cfg: Config, states: seq<NodeState>, ops: seq<Op>, n: nat)
    requires Run(cfg, states, ops) && n <= |ops|
    requires forall i :: 0 <= i < n ==> OpensByCreation(cfg, states[i], ops[i])
    ensures UsesCreated(states[n])
    ensures forall i :: 0 <= i < n ==> Fine(cfg, states, ops)[i]
  {
    if n > 0 {
      CreationsFine(cfg, states, ops, n - 1);
      CreationFine(cfg, states, ops, n - 1);
    }
  }

  lemma CreationFine(cfg: Config, states: seq<NodeState>, ops: seq<Op>, n: nat)
    requires Run(cfg, states, ops) && n < |ops| && UsesCreated(states[n])
    requires OpensByCreation(cfg, states[n], ops[n])
    ensures UsesCreated(states[n + 1]) && Fine(cfg, states, ops)[n]
  {
    RunInv(cfg, states, ops, n);
    CreatedStep(cfg, states[n], ops[n], states[n + 1]);
  }

  /** If only the creation of a channel ever opens an epoch, no accepted operation opens one with
      a channel in use. */
  lemma CreationsOpenFresh(cfg: Config, states: seq<NodeState>, ops: seq<Op>, n: nat)
    requires Run(cfg, states, ops) && n <= |ops|
    requires forall i :: 0 <= i < n ==> OpensByCreation(cfg, states[i], ops[i])
    ensures UsesCreated(states[n])
    ensures FreshUntil(cfg, states, ops, n)
  {
    CreationsFine(cfg, states, ops, n);
    FineIsFresh(cfg, states, ops, n);
  }

  // ---------- Challenges ----------

  /** An identifier that is not an escrow channel's is only ever the home channel of a state. */
  lemma OnHome(cfg: Config, ns: NodeState, s: State, id: Id) returns (k: Key)
    requires ChainsValid(cfg, ns) && Stored(ns.chains, s) && CoSignedOn(s, id) && !id.EscrowChannelId?
    ensures Uses(ns.chains, k, s.epoch, id)
  {
    k :| k in ns.chains && s in ns.chains[k];
    var i :| 0 <= i < |ns.chains[k]| && ns.chains[k][i] == s;
    ChainSound(k, ns.chains[k], i, DecimalsOf(cfg, k));
  }

  /** After every run in which no epoch was opened with a channel in use, a challenge of a home
      channel is answered exactly if some co-signed state of the channel is newer. */
  lemma ChallengesAnswered(cfg: Config, states: seq<NodeState>, ops: seq<Op>, n: nat, id: Id, latest: Option<State>,
                           v: nat)
    requires Run(cfg, states, ops) && n <= |ops| && !id.EscrowChannelId?
    requires FreshUntil(cfg, states, ops, n)
    requires LatestStored(states[n].chains, id, latest)
    ensures NewerExists(states[n].chains, id, v) <==> Answered(states[n].chains, id, v)
  {
    var ns := states[n];
    RunInv(cfg, states, ops, n);
    OneEpochIff(cfg, states, ops, n);
    forall s, t | Stored(ns.chains, s) && Stored(ns.chains, t) && CoSignedOn(s, id) && CoSignedOn(t, id)
      ensures s.epoch == t.epoch
    {
      var j := OnHome(cfg, ns, s, id);
      var k := OnHome(cfg, ns, t, id);
    }
    OneEpochAnswered(ns.chains, id, latest, v);
  }
}
