/** On-chain events of home channels, and the node's answer to a challenge. */
module Events {
  import opened Options
  import opened Channels
  import opened Chains

  datatype ChannelType = Home | Escrow

  datatype ChannelStatus = Unopened | Open | Challenged | Closed

  datatype Channel = Channel(
    user: Wallet,
    asset: Asset,
    kind: ChannelType,
    status: ChannelStatus,
    stateVersion: nat,
    expiresAt: Option<nat>)

  /** A checkpoint of a state that has been scheduled for a chain. */
  datatype Checkpoint = Checkpoint(state: Id, chain: ChainId)

  predicate OnChannel(s: State, id: Id) {
    s.homeChannel == Some(id) || s.escrowChannel == Some(id)
  }

  predicate CoSignedOn(s: State, id: Id) {
    OnChannel(s, id) && s.userSigned && s.nodeSigned
  }

  /** r is the latest co-signed state of a channel, by epoch and version. */
  ghost predicate Latest(states: seq<State>, id: Id, r: Option<State>) {
    match r
    case None => forall s :: s in states ==> !CoSignedOn(s, id)
    case Some(s) => s in states && CoSignedOn(s, id) && forall t :: t in states && CoSignedOn(t, id) ==> !Before(s, t)
  }

  /** A state is in one of the chains that the node stores. */
  ghost predicate Stored(chains: map<Key, seq<State>>, s: State) {
    exists k :: k in chains && s in chains[k]
  }

  /** All rows of the table of states. */
  ghost predicate Rows(chains: map<Key, seq<State>>, states: seq<State>) {
    forall s :: s in states <==> Stored(chains, s)
  }

  method AllStates(chains: map<Key, seq<State>>) returns (states: seq<State>)
    ensures Rows(chains, states)
  {
    states := [];
    var rest := chains.Keys;
    while rest != {}
      invariant rest <= chains.Keys
      invariant forall s :: s in states <==> exists k :: k in chains && k !in rest && s in chains[k]
      decreases |rest|
    {
      var k :| k in rest;
      rest := rest - {k};
      states := states + chains[k];
    }
  }

  /** r is the latest co-signed state of a channel in the node's chains. */
  ghost predicate LatestStored(chains: map<Key, seq<State>>, id: Id, r: Option<State>) {
    match r
    case None => forall s :: Stored(chains, s) ==> !CoSignedOn(s, id)
    case Some(s) => Stored(chains, s) && CoSignedOn(s, id)
                    && forall t :: Stored(chains, t) && CoSignedOn(t, id) ==> !Before(s, t)
  }

  /** The channel is a home channel, and the challenge is not stale. */
  predicate Pertinent(channels: map<Id, Channel>, id: Id, v: nat) {
    id in channels && channels[id].kind == Home && channels[id].stateVersion <= v
  }

  /** The handlers' part of the database: the channels, the node's chains of states, and the
      checkpoints that are scheduled. */
  class EventStore {
    var channels: map<Id, Channel>
    var chains: map<Key, seq<State>>
    var scheduled: seq<Checkpoint>

    /** The latest co-signed state of a channel. */
    method GetLastStateByChannelID(id: Id) returns (r: Option<State>)
      ensures LatestStored(chains, id, r)
    {
      var states := AllStates(chains);
      r := None;
      for i := 0 to |states|
        invariant Latest(states[..i], id, r)
      {
        var s := states[i];
        assert states[..i + 1] == states[..i] + [s];
        if CoSignedOn(s, id) && (r.None? || Before(r.value, s)) {
          r := Some(s);
        }
      }
      assert states[..|states|] == states;
    }

    method HandleHomeChannelCreated(id: Id, v: nat)
      modifies this`channels
      ensures channels == if id in old(channels) && old(channels)[id].kind == Home
                          then old(channels)[id := old(channels)[id].(stateVersion := v, status := Open)]
                          else old(channels)
    {
      if id !in channels { return; }
      var channel := channels[id];
      if channel.kind != Home { return; }
      channel := channel.(stateVersion := v);
      channel := channel.(status := Open);
      channels := channels[id := channel];
    }

    method HandleHomeChannelCheckpointed(id: Id, v: nat)
      modifies this`channels
      ensures id in old(channels) && old(channels)[id].kind == Home ==>
        var before := old(channels)[id];
        channels == old(channels)[id :=
          before.(stateVersion := v, status := if before.status == Challenged then Open else before.status)]
      ensures id !in old(channels) || old(channels)[id].kind != Home ==> channels == old(channels)
    {
      if id !in channels { return; }
      var channel := channels[id];
      if channel.kind != Home { return; }
      channel := channel.(stateVersion := v);
      if channel.status == Challenged {
        channel := channel.(status := Open);
      }
      channels := channels[id := channel];
    }

    method HandleHomeChannelClosed(id: Id, v: nat)
      modifies this`channels
      ensures channels == if id in old(channels) && old(channels)[id].kind == Home
                          then old(channels)[id := old(channels)[id].(stateVersion := v, status := Closed)]
                          else old(channels)
    {
      if id !in channels { return; }
      var channel := channels[id];
      if channel.kind != Home { return; }
      channel := channel.(stateVersion := v);
      channel := channel.(status := Closed);
      channels := channels[id := channel];
    }

    /** A challenge: marks the channel, and schedules a checkpoint of the latest co-signed state
        exactly if that state is newer than the challenged one. */
    method HandleHomeChannelChallenged(id: Id, v: nat, expiry: nat) returns (answer: Option<State>)
      modifies this`channels, this`scheduled
      ensures id in old(channels) && old(channels)[id].kind == Home && old(channels)[id].stateVersion <= v ==>
        channels == old(channels)[id :=
          old(channels)[id].(stateVersion := v, status := Challenged, expiresAt := Some(expiry))]
      ensures id !in old(channels) || old(channels)[id].kind != Home || v < old(channels)[id].stateVersion ==>
        channels == old(channels)
      ensures answer.Some? ==> Pertinent(old(channels), id, v) && v < answer.value.version
      ensures answer.Some? ==> LatestStored(chains, id, answer)
      ensures answer.None? && Pertinent(old(channels), id, v) ==>
        exists last :: LatestStored(chains, id, last) && (last.Some? ==> last.value.version <= v)
      ensures scheduled == old(scheduled)
                + if answer.Some? then [Checkpoint(answer.value.id, answer.value.home.chain)] else []
    {
      answer := None;
      if id !in channels { return; }
      var channel := channels[id];
      if channel.kind != Home { return; }
      if v < channel.stateVersion { return; }
      channel := channel.(stateVersion := v);
      channel := channel.(status := Challenged);
      channel := channel.(expiresAt := Some(expiry));
      channels := channels[id := channel];
      var last := GetLastStateByChannelID(id);
      if last.Some? && last.value.version > v {
        scheduled := scheduled + [Checkpoint(last.value.id, last.value.home.chain)];
        answer := last;
      }
    }
  }

  /** A challenge of version v is answered if it is not stale: the latest co-signed state of the
      channel has a higher version. */
  ghost predicate Answered(chains: map<Key, seq<State>>, id: Id, v: nat) {
    exists s :: LatestStored(chains, id, Some(s)) && s.version > v
  }

  /** Some co-signed state of the channel has a higher version. */
  ghost predicate NewerExists(chains: map<Key, seq<State>>, id: Id, v: nat) {
    exists s :: Stored(chains, s) && CoSignedOn(s, id) && s.version > v
  }

  method ChallengeAnswered(store: EventStore, id: Id, v: nat, expiry: nat) returns (answer: Option<State>)
    requires Pertinent(store.channels, id, v)
    modifies store
    ensures store.chains == old(store.chains)
    ensures answer.Some? <==> Answered(store.chains, id, v)
  {
    answer := store.HandleHomeChannelChallenged(id, v, expiry);
    if answer.None? {
      ghost var last :| LatestStored(store.chains, id, last) && (last.Some? ==> last.value.version <= v);
      forall s | LatestStored(store.chains, id, Some(s)) ensures s.version <= v {
        assert !Before(last.value, s) && !Before(s, last.value);
      }
    }
  }

  /** Every challenge for which a newer co-signed state exists is answered if and only if no
      co-signed state of the channel has a higher version than the latest one, which is the case
      unless the channel goes on in a later epoch. */
  lemma AllAnsweredIff(chains: map<Key, seq<State>>, id: Id, latest: Option<State>)
    requires LatestStored(chains, id, latest)
    ensures (forall v :: NewerExists(chains, id, v) <==> Answered(chains, id, v))
       <==> (forall s :: Stored(chains, s) && CoSignedOn(s, id) ==> s.version <= latest.value.version)
  {
    forall v ensures Answered(chains, id, v) ==> NewerExists(chains, id, v) {}
    if forall v :: NewerExists(chains, id, v) <==> Answered(chains, id, v) {
      forall s | Stored(chains, s) && CoSignedOn(s, id) ensures s.version <= latest.value.version {
        LatestVersion(chains, id, latest.value);
        if s.version > latest.value.version {
          assert NewerExists(chains, id, latest.value.version);
        }
      }
    }
    if forall s :: Stored(chains, s) && CoSignedOn(s, id) ==> s.version <= latest.value.version {
      forall v | NewerExists(chains, id, v) ensures Answered(chains, id, v) {
        assert LatestStored(chains, id, Some(latest.value));
      }
    }
  }

  /** Of equally late states, all have the same version. */
  lemma LatestVersion(chains: map<Key, seq<State>>, id: Id, latest: State)
    requires LatestStored(chains, id, Some(latest))
    ensures forall v :: Answered(chains, id, v) <==> latest.version > v
  {
    forall s | LatestStored(chains, id, Some(s)) ensures latest.version == s.version {
      assert !Before(latest, s) && !Before(s, latest);
    }
  }

  /** The co-signed states of a channel are of one epoch. */
  ghost predicate OneEpoch(chains: map<Key, seq<State>>, id: Id) {
    forall s, t :: Stored(chains, s) && Stored(chains, t) && CoSignedOn(s, id) && CoSignedOn(t, id) ==>
      s.epoch == t.epoch
  }

  /** In particular, nothing newer is missed on a channel that stays in one epoch. */
  lemma OneEpochAnswered(chains: map<Key, seq<State>>, id: Id, latest: Option<State>, v: nat)
    requires LatestStored(chains, id, latest) && OneEpoch(chains, id)
    ensures NewerExists(chains, id, v) <==> Answered(chains, id, v)
  {
    forall s | Stored(chains, s) && CoSignedOn(s, id) ensures s.version <= latest.value.version {
      assert !Before(latest.value, s);
    }
    AllAnsweredIff(chains, id, latest);
  }
}
