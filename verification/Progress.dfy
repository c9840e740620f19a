/** Whatever the node accepts it can carry out, so that runs can be built one request at a time. */
module Progress {
  import opened Allocations
  import opened NodeModel
  import opened Runs

  /** Changes can be recorded, one entry each. */
  lemma {:induction false} Record(changes: map<Slot, real>) returns (entries: seq<Entry>)
    ensures Lists(entries, changes)
    decreases |changes|
  {
    if changes == map[] {
      entries := [];
    } else {
      var k :| k in changes;
      entries := Record(changes - {k});
      ListsMore(entries, changes - {k}, k, changes[k]);
      assert (changes - {k})[k := changes[k]] == changes;
      entries := entries + [Entry(k, changes[k])];
    }
  }

  /** The store after an effect. */
  lemma Realize(ns: NodeState, eff: Effect) returns (after: NodeState)
    ensures Applied(ns, eff, after)
  {
    var added := Record(eff.changes);
    after := NodeState(AppendAll(ns.chains, eff.appended), ns.channels + eff.channels, ns.sessions + eff.sessions,
                       ns.entries + added, ns.txs + eff.txs);
    assert after.entries[..|ns.entries|] == ns.entries && after.entries[|ns.entries|..] == added;
  }

  /** Every request leads somewhere. */
  lemma StepExists(cfg: Config, ns: NodeState, op: Op) returns (after: NodeState)
    ensures Step(cfg, ns, op, after)
    ensures Accepts(cfg, ns, op) ==> Applied(ns, EffectOf(cfg, ns, op), after)
  {
    if Accepts(cfg, ns, op) {
      after := Realize(ns, EffectOf(cfg, ns, op));
    } else {
      after := ns;
    }
  }

  lemma RunMore(cfg: Config, states: seq<NodeState>, ops: seq<Op>, op: Op, after: NodeState)
    requires Run(cfg, states, ops) && Step(cfg, states[|ops|], op, after)
    ensures Run(cfg, states + [after], ops + [op])
  {
    var s, o := states + [after], ops + [op];
    forall i | 0 <= i < |o| ensures Step(cfg, s[i], o[i], s[i + 1]) {
      if i < |ops| {
        assert s[i] == states[i] && s[i + 1] == states[i + 1] && o[i] == ops[i];
      } else {
        assert s[i] == states[|ops|] && s[i + 1] == after && o[i] == op;
      }
    }
  }

  lemma NoRun(cfg: Config)
    ensures Run(cfg, [INITIAL], [])
  {}
}
