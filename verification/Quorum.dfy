/** Quorum of an app session: signature weights added up in a wrapping 8-bit counter. */
module Quorum {
  import opened Options
  import opened Channels

  const BYTE := 256

  type Weight = w: nat | w < BYTE

  datatype Participant = Participant(wallet: Wallet, weight: Weight)

  /** The weight of each participant; of two entries for one wallet the later one counts. */
  function Weights(participants: seq<Participant>): map<Wallet, Weight> {
    if participants == [] then map[]
    else
      var n := |participants| - 1;
      Weights(participants[..n])[participants[n].wallet := participants[n].weight]
  }

  /** The true weight of a set of wallets. */
  ghost function WeightOf(signers: set<Wallet>, weights: map<Wallet, Weight>): nat
    requires signers <= weights.Keys
  {
    if signers == {} then 0
    else
      var w :| w in signers;
      weights[w] + WeightOf(signers - {w}, weights)
  }

  lemma {:induction false} WeightWithout(signers: set<Wallet>, weights: map<Wallet, Weight>, w: Wallet)
    requires signers <= weights.Keys && w in signers
    ensures WeightOf(signers, weights) == weights[w] + WeightOf(signers - {w}, weights)
    decreases |signers|
  {
    var c :| c in signers && WeightOf(signers, weights) == weights[c] + WeightOf(signers - {c}, weights);
    if c != w {
      WeightWithout(signers - {c}, weights, w);
      WeightWithout(signers - {w}, weights, c);
      assert signers - {c} - {w} == signers - {w} - {c};
    }
  }

  lemma WeightWith(signers: set<Wallet>, weights: map<Wallet, Weight>, w: Wallet)
    requires signers <= weights.Keys && w in weights && w !in signers
    ensures WeightOf(signers + {w}, weights) == weights[w] + WeightOf(signers, weights)
  {
    WeightWithout(signers + {w}, weights, w);
    assert signers + {w} - {w} == signers;
  }

  /** A larger set of signers weighs at least as much. */
  lemma {:induction false} WeightGrows(signers: set<Wallet>, more: set<Wallet>, weights: map<Wallet, Weight>)
    requires signers <= more <= weights.Keys
    ensures WeightOf(signers, weights) <= WeightOf(more, weights)
    decreases |signers|
  {
    if signers != {} {
      var w :| w in signers;
      WeightWithout(signers, weights, w);
      WeightWithout(more, weights, w);
      WeightGrows(signers - {w}, more - {w}, weights);
    }
  }

  /** The wallets recovered from the signatures. */
  function Signers(recovered: seq<Option<Wallet>>): set<Wallet> {
    set s | s in recovered && s.Some? :: s.value
  }

  /** Every signature is recovered, and from a participant. */
  predicate AllParticipants(weights: map<Wallet, Weight>, recovered: seq<Option<Wallet>>) {
    forall s :: s in recovered ==> s.Some? && s.value in weights
  }

  /** Each distinct signer counts once; the sum wraps around at 256. */
  ghost predicate QuorumMet(weights: map<Wallet, Weight>, required: Weight, recovered: seq<Option<Wallet>>) {
    AllParticipants(weights, recovered) && WeightOf(Signers(recovered), weights) % BYTE >= required
  }

  /** One more signature that is a participant's. */
  lemma OneMoreSigner(weights: map<Wallet, Weight>, recovered: seq<Option<Wallet>>, i: nat)
    requires i < |recovered|
    ensures recovered[i].Some? ==> Signers(recovered[..i + 1]) == Signers(recovered[..i]) + {recovered[i].value}
    ensures AllParticipants(weights, recovered[..i + 1]) <==>
              AllParticipants(weights, recovered[..i]) && recovered[i].Some? && recovered[i].value in weights
    ensures AllParticipants(weights, recovered) ==> recovered[i].Some? && recovered[i].value in weights
  {
    assert recovered[..i + 1] == recovered[..i] + [recovered[i]];
    assert recovered[i] in recovered && recovered[i] in recovered[..i + 1];
  }

  /** Every signature so far is a participant's, and their weights have been added up. */
  ghost predicate Counted(weights: map<Wallet, Weight>, recovered: seq<Option<Wallet>>, signed: set<Wallet>,
                          achieved: nat)
  {
    && AllParticipants(weights, recovered)
    && signed == Signers(recovered) && signed <= weights.Keys
    && achieved == WeightOf(signed, weights) % BYTE
  }

  /** One more signature counts unless its signer has been counted already. */
  lemma CountedMore(weights: map<Wallet, Weight>, recovered: seq<Option<Wallet>>, i: nat, signed: set<Wallet>,
                    achieved: nat)
    requires i < |recovered| && Counted(weights, recovered[..i], signed, achieved)
    requires recovered[i].Some? && recovered[i].value in weights
    ensures var w := recovered[i].value;
      if w in signed then Counted(weights, recovered[..i + 1], signed, achieved)
      else Counted(weights, recovered[..i + 1], signed + {w}, (achieved + weights[w]) % BYTE)
  {
    var w := recovered[i].value;
    OneMoreSigner(weights, recovered, i);
    if w in signed {
      assert signed + {w} == signed;
    } else {
      WeightWith(signed, weights, w);
    }
  }

  method VerifyQuorum(weights: map<Wallet, Weight>, required: Weight, recovered: seq<Option<Wallet>>) returns (ok: bool)
    ensures ok <==> QuorumMet(weights, required, recovered)
  {
    var signed: set<Wallet> := {};
    var achieved: nat := 0;
    for i := 0 to |recovered|
      invariant Counted(weights, recovered[..i], signed, achieved)
    {
      OneMoreSigner(weights, recovered, i);
      if recovered[i].None? { return false; }
      var wallet := recovered[i].value;
      if wallet !in weights { return false; }
      CountedMore(weights, recovered, i, signed, achieved);
      if wallet !in signed {
        signed := signed + {wallet};
        achieved := (achieved + weights[wallet]) % BYTE;
      }
    }
    assert recovered[..|recovered|] == recovered;
    return achieved >= required;
  }

  /** An accepted update is backed by the true weight of its distinct signers. */
  lemma AcceptedReachesQuorum(weights: map<Wallet, Weight>, required: Weight, recovered: seq<Option<Wallet>>)
    requires QuorumMet(weights, required, recovered)
    ensures Signers(recovered) <= weights.Keys && WeightOf(Signers(recovered), weights) >= required
  {
    assert Signers(recovered) <= weights.Keys;
    var w := WeightOf(Signers(recovered), weights);
    assert w % BYTE <= w;
  }

  /** Neither the order nor the repetition of signatures matters. */
  lemma VerdictOfSigners(weights: map<Wallet, Weight>, required: Weight, a: seq<Option<Wallet>>, b: seq<Option<Wallet>>)
    requires forall s :: s in a <==> s in b
    ensures QuorumMet(weights, required, a) <==> QuorumMet(weights, required, b)
  {
    forall w ensures w in Signers(a) <==> w in Signers(b) {
      assert w in Signers(a) <==> Some(w) in a;
      assert w in Signers(b) <==> Some(w) in b;
    }
    assert Signers(a) == Signers(b);
  }

  /** With a total weight of at most 255 the verdict is exact: the signatures of participants
      are accepted if and only if their true weight reaches the quorum. */
  lemma ExactWithoutWrap(weights: map<Wallet, Weight>, required: Weight, recovered: seq<Option<Wallet>>)
    requires WeightOf(weights.Keys, weights) < BYTE && AllParticipants(weights, recovered)
    ensures Signers(recovered) <= weights.Keys
    ensures QuorumMet(weights, required, recovered) <==> WeightOf(Signers(recovered), weights) >= required
  {
    WeightGrows(Signers(recovered), weights.Keys, weights);
  }

  lemma {:induction false} WeightUnion(a: set<Wallet>, b: set<Wallet>, weights: map<Wallet, Weight>)
    requires a <= weights.Keys && b <= weights.Keys && a !! b
    ensures WeightOf(a + b, weights) == WeightOf(a, weights) + WeightOf(b, weights)
    decreases |b|
  {
    if b == {} {
      assert a + b == a;
    } else {
      var w :| w in b;
      WeightUnion(a, b - {w}, weights);
      WeightWith(a + (b - {w}), weights, w);
      WeightWithout(b, weights, w);
      assert a + (b - {w}) + {w} == a + b;
    }
  }

  lemma SignersMore(recovered: seq<Option<Wallet>>, more: seq<Option<Wallet>>)
    ensures Signers(recovered + more) == Signers(recovered) + Signers(more)
  {
    forall w ensures w in Signers(recovered + more) <==> w in Signers(recovered) || w in Signers(more) {
      assert w in Signers(recovered + more) <==> Some(w) in recovered + more;
      assert w in Signers(recovered) <==> Some(w) in recovered;
      assert w in Signers(more) <==> Some(w) in more;
    }
  }

  /** What the signatures weigh as counted. */
  ghost function CountedWeight(weights: map<Wallet, Weight>, recovered: seq<Option<Wallet>>): nat
    requires AllParticipants(weights, recovered)
  {
    WeightOf(Signers(recovered), weights) % BYTE
  }

  /** What the new signers among some more signatures weigh. */
  ghost function ExtraWeight(weights: map<Wallet, Weight>, recovered: seq<Option<Wallet>>,
                             more: seq<Option<Wallet>>): nat
    requires AllParticipants(weights, more)
  {
    WeightOf(Signers(more) - Signers(recovered), weights)
  }

  /** Further signatures of participants lose a met quorum exactly if the weight of those who have
      not signed before wraps the counter around, to less than the quorum. */
  lemma FurtherSignersLose(weights: map<Wallet, Weight>, required: Weight, recovered: seq<Option<Wallet>>,
                           more: seq<Option<Wallet>>)
    requires QuorumMet(weights, required, recovered) && AllParticipants(weights, more)
    ensures var sum := CountedWeight(weights, recovered) + ExtraWeight(weights, recovered, more);
      !QuorumMet(weights, required, recovered + more)
      <==> exists wraps: nat :: wraps >= 1 && wraps * BYTE <= sum < wraps * BYTE + required
  {
    var a, b := Signers(recovered), Signers(more) - Signers(recovered);
    SignersMore(recovered, more);
    assert a + Signers(more) == a + b;
    WeightUnion(a, b, weights);
    var sum := CountedWeight(weights, recovered) + ExtraWeight(weights, recovered, more);
    WrappedSum(WeightOf(a, weights), WeightOf(b, weights));
    Wraps(sum, required);
  }

  lemma WrappedSum(x: nat, y: nat)
    ensures (x + y) % BYTE == (x % BYTE + y) % BYTE
  {}

  lemma Wraps(sum: nat, required: Weight)
    requires sum >= required
    ensures sum % BYTE < required <==> exists wraps: nat :: wraps >= 1 && wraps * BYTE <= sum < wraps * BYTE + required
  {
    var wraps := sum / BYTE;
    assert sum == wraps * BYTE + sum % BYTE;
  }

  /** One participant's further signature can wrap the counter once only. */
  lemma FurtherSignerLoses(weights: map<Wallet, Weight>, required: Weight, recovered: seq<Option<Wallet>>, w: Wallet)
    requires QuorumMet(weights, required, recovered) && w in weights && w !in Signers(recovered)
    ensures !QuorumMet(weights, required, recovered + [Some(w)])
       <==> BYTE <= CountedWeight(weights, recovered) + weights[w] < BYTE + required
  {
    assert (recovered + [Some(w)])[..|recovered|] == recovered;
    OneMoreSigner(weights, recovered + [Some(w)], |recovered|);
    assert (recovered + [Some(w)])[..|recovered| + 1] == recovered + [Some(w)];
    WeightWith(Signers(recovered), weights, w);
  }

  /** These signers meet the quorum, and w with them does not. */
  ghost predicate Loses(weights: map<Wallet, Weight>, required: Weight, signers: set<Wallet>, w: Wallet) {
    && signers <= weights.Keys && w in weights && w !in signers
    && var counted := WeightOf(signers, weights) % BYTE;
       required <= counted && BYTE <= counted + weights[w] < BYTE + required
  }

  /** In this session no further signature of a participant ever loses a met quorum. */
  ghost predicate KeepsQuorum(weights: map<Wallet, Weight>, required: Weight) {
    forall recovered, more :: QuorumMet(weights, required, recovered) && AllParticipants(weights, more) ==>
      QuorumMet(weights, required, recovered + more)
  }

  lemma {:induction false} SignatureOfEach(signers: set<Wallet>) returns (recovered: seq<Option<Wallet>>)
    ensures Signers(recovered) == signers && forall s :: s in recovered ==> s.Some? && s.value in signers
  {
    if signers == {} {
      recovered := [];
    } else {
      var w :| w in signers;
      recovered := SignatureOfEach(signers - {w});
      SignersMore(recovered, [Some(w)]);
      assert Signers([Some(w)]) == {w};
      recovered := recovered + [Some(w)];
    }
  }

  lemma {:induction false} AddedOneByOne(weights: map<Wallet, Weight>, required: Weight,
                                         recovered: seq<Option<Wallet>>, more: seq<Option<Wallet>>)
    requires forall signers, w :: !Loses(weights, required, signers, w)
    requires QuorumMet(weights, required, recovered) && AllParticipants(weights, more)
    ensures QuorumMet(weights, required, recovered + more)
  {
    if more == [] {
      assert recovered + more == recovered;
    } else {
      var n := |more| - 1;
      assert more[n] in more;
      AddedOneByOne(weights, required, recovered, more[..n]);
      assert recovered + more == recovered + more[..n] + [more[n]];
      OneAdded(weights, required, recovered + more[..n], more[n].value);
    }
  }

  lemma OneAdded(weights: map<Wallet, Weight>, required: Weight, recovered: seq<Option<Wallet>>, w: Wallet)
    requires !Loses(weights, required, Signers(recovered), w)
    requires QuorumMet(weights, required, recovered) && w in weights
    ensures QuorumMet(weights, required, recovered + [Some(w)])
  {
    if w in Signers(recovered) {
      VerdictOfSigners(weights, required, recovered, recovered + [Some(w)]);
    } else {
      FurtherSignerLoses(weights, required, recovered, w);
    }
  }

  /** A session keeps every met quorum exactly if no participant loses it for any set of others. */
  lemma KeepsQuorumIff(weights: map<Wallet, Weight>, required: Weight)
    ensures KeepsQuorum(weights, required) <==> forall signers, w :: !Loses(weights, required, signers, w)
  {
    if forall signers, w :: !Loses(weights, required, signers, w) {
      forall recovered, more | QuorumMet(weights, required, recovered) && AllParticipants(weights, more)
        ensures QuorumMet(weights, required, recovered + more)
      {
        AddedOneByOne(weights, required, recovered, more);
      }
    }
    if signers, w :| Loses(weights, required, signers, w) {
      var recovered := SignatureOfEach(signers);
      FurtherSignerLoses(weights, required, recovered, w);
      assert AllParticipants(weights, [Some(w)]);
    }
  }

  /** In particular, with a total weight of at most 255 adding participants' signatures never loses
      a met quorum. */
  lemma MoreSignersKeepQuorum(weights: map<Wallet, Weight>, required: Weight,
                              recovered: seq<Option<Wallet>>, more: seq<Option<Wallet>>)
    requires WeightOf(weights.Keys, weights) < BYTE && AllParticipants(weights, more)
    requires QuorumMet(weights, required, recovered)
    ensures QuorumMet(weights, required, recovered + more)
  {
    assert Signers(recovered) <= Signers(recovered + more);
    assert AllParticipants(weights, recovered + more);
    WeightGrows(Signers(recovered), Signers(recovered + more), weights);
    ExactWithoutWrap(weights, required, recovered);
    ExactWithoutWrap(weights, required, recovered + more);
  }

  // ---------- Definition of a session ----------

  predicate Distinct(participants: seq<Participant>) {
    forall i, j :: 0 <= i < j < |participants| ==> participants[i].wallet != participants[j].wallet
  }

  /** The participants of a new session are distinct, and its quorum is positive and at most
      the sum of their weights, which wraps around as well. */
  ghost predicate DefinitionValid(participants: seq<Participant>, quorum: Weight) {
    Distinct(participants) && 0 < quorum <= WeightOf(Weights(participants).Keys, Weights(participants)) % BYTE
  }

  lemma {:induction false} WeightsKeys(participants: seq<Participant>)
    ensures forall w :: w in Weights(participants) <==>
      exists i :: 0 <= i < |participants| && participants[i].wallet == w
  {
    if participants != [] {
      var n := |participants| - 1;
      WeightsKeys(participants[..n]);
      forall w ensures w in Weights(participants) <==>
        exists i :: 0 <= i < |participants| && participants[i].wallet == w {
        if w in Weights(participants[..n]) {
          var i :| 0 <= i < n && participants[..n][i].wallet == w;
          assert participants[i].wallet == w;
        }
      }
    }
  }

  lemma WeightOfSame(signers: set<Wallet>, a: map<Wallet, Weight>, b: map<Wallet, Weight>)
    requires signers <= a.Keys && signers <= b.Keys
    requires forall w :: w in signers ==> a[w] == b[w]
    ensures WeightOf(signers, a) == WeightOf(signers, b)
  {
    if signers != {} {
      var w :| w in signers;
      WeightWithout(signers, a, w);
      WeightWithout(signers, b, w);
      WeightOfSame(signers - {w}, a, b);
    }
  }

  /** One more participant, new or not, and the weights so far. */
  lemma OneMore(participants: seq<Participant>, i: nat)
    requires i < |participants| && Distinct(participants[..i])
    ensures var p, weights := participants[i], Weights(participants[..i]);
      && Weights(participants[..i + 1]) == weights[p.wallet := p.weight]
      && (p.wallet in weights ==> !Distinct(participants))
      && (p.wallet !in weights ==>
            Distinct(participants[..i + 1])
            && WeightOf(Weights(participants[..i + 1]).Keys, Weights(participants[..i + 1]))
               == p.weight + WeightOf(weights.Keys, weights))
  {
    var p, weights := participants[i], Weights(participants[..i]);
    var more := weights[p.wallet := p.weight];
    assert participants[..i + 1][..i] == participants[..i];
    WeightsKeys(participants[..i]);
    if p.wallet in weights {
      var j :| 0 <= j < i && participants[..i][j].wallet == p.wallet;
      assert participants[j].wallet == participants[i].wallet;
    } else {
      assert more.Keys == weights.Keys + {p.wallet};
      WeightOfSame(weights.Keys, weights, more);
      WeightWith(weights.Keys, more, p.wallet);
      forall a, b | 0 <= a < b < i + 1 ensures participants[a].wallet != participants[b].wallet {
        assert participants[..i][a].wallet in weights;
        if b < i {
          assert participants[..i][a].wallet != participants[..i][b].wallet;
        }
      }
    }
  }

  /** These participants are distinct, and their weights have been added up. */
  ghost predicate Totalled(participants: seq<Participant>, weights: map<Wallet, Weight>, total: nat) {
    Distinct(participants) && weights == Weights(participants) && total == WeightOf(weights.Keys, weights) % BYTE
  }

  lemma TotalledMore(participants: seq<Participant>, i: nat, weights: map<Wallet, Weight>, total: nat)
    requires i < |participants| && Totalled(participants[..i], weights, total)
    ensures var p := participants[i];
      if p.wallet in weights then !Distinct(participants)
      else Totalled(participants[..i + 1], weights[p.wallet := p.weight], (total + p.weight) % BYTE)
  {
    OneMore(participants, i);
  }

  method CheckDefinition(participants: seq<Participant>, quorum: Weight) returns (ok: bool)
    ensures ok <==> DefinitionValid(participants, quorum)
  {
    if quorum == 0 { return false; }
    var total: nat := 0;
    var weights: map<Wallet, Weight> := map[];
    for i := 0 to |participants|
      invariant Totalled(participants[..i], weights, total)
    {
      TotalledMore(participants, i, weights, total);
      var p := participants[i];
      if p.wallet in weights { return false; }
      total := (total + p.weight) % BYTE;
      weights := weights[p.wallet := p.weight];
    }
    assert participants[..|participants|] == participants;
    return quorum <= total;
  }

  /** The signatures of all participants of a session that was created are always accepted. */
  lemma FullSetAccepted(participants: seq<Participant>, quorum: Weight, recovered: seq<Option<Wallet>>)
    requires DefinitionValid(participants, quorum)
    requires AllParticipants(Weights(participants), recovered)
    requires forall p :: p in participants ==> Some(p.wallet) in recovered
    ensures QuorumMet(Weights(participants), quorum, recovered)
  {
    WeightsKeys(participants);
    var weights := Weights(participants);
    forall w | w in weights ensures w in Signers(recovered) {
      var i :| 0 <= i < |participants| && participants[i].wallet == w;
      assert participants[i] in participants;
      assert Some(w) in recovered;
    }
    assert Signers(recovered) == weights.Keys;
  }

  lemma WeightsOfThree(a: Wallet, x: Weight, b: Wallet, y: Weight, c: Wallet, z: Weight)
    ensures Weights([Participant(a, x), Participant(b, y), Participant(c, z)]) == map[a := x, b := y, c := z]
  {
    var ps := [Participant(a, x), Participant(b, y), Participant(c, z)];
    assert ps[..2] == [Participant(a, x), Participant(b, y)];
    assert ps[..2][..1] == [Participant(a, x)];
    assert ps[..2][..1][..0] == [];
    assert Weights(ps[..2][..1]) == map[a := x];
    assert Weights(ps[..2]) == map[a := x, b := y];
  }

  lemma WeightOfThree(a: Wallet, x: Weight, b: Wallet, y: Weight, c: Wallet, z: Weight)
    requires a != b && a != c && b != c
    ensures var weights := map[a := x, b := y, c := z];
      && WeightOf({a}, weights) == x && WeightOf({a, b}, weights) == x + y
      && WeightOf(weights.Keys, weights) == x + y + z
  {
    var weights := map[a := x, b := y, c := z];
    WeightWith({}, weights, a);
    WeightWith({a}, weights, b);
    WeightWith({a, b}, weights, c);
    assert {} + {a} == {a} && {a} + {b} == {a, b} && {a, b} + {c} == weights.Keys;
  }

  lemma SignersOfTwo(a: Wallet, b: Wallet)
    ensures Signers([Some(a)]) == {a} && Signers([Some(a), Some(b)]) == {a, b}
  {
    assert Some(a) in [Some(a), Some(b)] && Some(b) in [Some(a), Some(b)];
  }

  /** Above 255 a further signature can lose the quorum: of weights 255, 2 and 100 with quorum
      100, the first signer is enough, the first two together are not. */
  lemma WrapLosesQuorum()
    ensures var ps := [Participant("a", 255), Participant("b", 2), Participant("c", 100)];
      && DefinitionValid(ps, 100)
      && QuorumMet(Weights(ps), 100, [Some("a")])
      && !QuorumMet(Weights(ps), 100, [Some("a"), Some("b")])
  {
    WeightsOfThree("a", 255, "b", 2, "c", 100);
    WeightOfThree("a", 255, "b", 2, "c", 100);
    SignersOfTwo("a", "b");
  }
}
