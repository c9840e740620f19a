/** The database that the endpoints work on, with its keys and its optimistic locking. */
module Database {
  import opened Options
  import opened Channels
  import opened Chains
  import opened Transactions
  import opened Allocations
  import opened NodeModel
  import opened Invariants

  class Store {
    var chains: map<Key, seq<State>>
    var channels: set<Id>
    var sessions: map<Id, Session>
    var entries: seq<Entry>
    var txs: set<Tx>
    /** The user states that have been locked, in order. */
    var locks: seq<Key>

    constructor ()
      ensures Snapshot() == INITIAL && locks == []
    {
      chains, channels, sessions, entries, txs, locks := map[], {}, map[], [], {}, [];
    }

    /** Everything stored, as one value. */
    function Snapshot(): NodeState
      reads this
    {
      NodeState(chains, channels, sessions, entries, txs)
    }

    /** Undoes everything since a snapshot: a transaction that fails changes nothing. */
    method Rollback(before: NodeState)
      modifies this`chains, this`channels, this`sessions, this`entries, this`txs
      ensures Snapshot() == before
    {
      chains, channels, sessions := before.chains, before.channels, before.sessions;
      entries, txs := before.entries, before.txs;
    }

    /** Locks a user's state for the rest of the transaction. */
    method LockUserState(k: Key)
      modifies this`locks
      ensures locks == old(locks) + [k]
    {
      locks := locks + [k];
    }

    /** The most recent state, of all or of the co-signed ones. */
    method GetLastUserState(k: Key, signed: bool) returns (s: Option<State>)
      ensures signed ==> s == LastSigned(ChainOf(chains, k))
      ensures !signed ==> s == if ChainOf(chains, k) == [] then None else Some(Current(Snapshot(), k))
    {
      var chain := ChainOf(chains, k);
      if !signed {
        return if chain == [] then None else Some(chain[|chain| - 1]);
      }
      var i := |chain|;
      assert chain[..i] == chain;
      while i > 0
        invariant 0 <= i <= |chain|
        invariant LastSigned(chain) == LastSigned(chain[..i])
      {
        var t := chain[i - 1];
        assert chain[..i][..i - 1] == chain[..i - 1];
        if t.userSigned && t.nodeSigned { return Some(t); }
        i := i - 1;
      }
      return None;
    }

    /** Appends a state to its chain, unless one with its identifier is stored. */
    method StoreUserState(s: State) returns (ok: bool)
      modifies this`chains
      ensures ok <==> !StoredId(old(chains), s.id)
      ensures ok ==> Snapshot() == old(Snapshot()).(chains := AppendAll(old(chains), map[KeyOf(s) := s]))
      ensures !ok ==> Snapshot() == old(Snapshot())
    {
      if exists k :: k in chains && exists i :: 0 <= i < |chains[k]| && chains[k][i].id == s.id {
        return false;
      }
      chains := chains[KeyOf(s) := ChainOf(chains, KeyOf(s)) + [s]];
      return true;
    }

    method CreateChannel(id: Id) returns (ok: bool)
      modifies this`channels
      ensures ok <==> id !in old(channels)
      ensures Snapshot() == if ok then old(Snapshot()).(channels := old(channels) + {id}) else old(Snapshot())
    {
      if id in channels { return false; }
      channels := channels + {id};
      return true;
    }

    method RecordTransaction(t: Tx) returns (ok: bool)
      modifies this`txs
      ensures ok <==> forall u :: u in old(txs) ==> u.id != t.id
      ensures Snapshot() == if ok then old(Snapshot()).(txs := old(txs) + {t}) else old(Snapshot())
    {
      if exists u :: u in txs && u.id == t.id { return false; }
      txs := txs + {t};
      return true;
    }

    /** Amounts of zero are not recorded. */
    method RecordLedgerEntry(slot: Slot, amount: real)
      modifies this`entries
      ensures Snapshot()
        == old(Snapshot()).(entries := old(entries) + if amount == 0.0 then [] else [Entry(slot, amount)])
    {
      if amount != 0.0 {
        entries := entries + [Entry(slot, amount)];
      }
    }

    method CreateAppSession(id: Id, session: Session) returns (ok: bool)
      modifies this`sessions
      ensures ok <==> id !in old(sessions)
      ensures Snapshot() == if ok then old(Snapshot()).(sessions := old(sessions)[id := session]) else old(Snapshot())
    {
      if id in sessions { return false; }
      sessions := sessions[id := session];
      return true;
    }

    /** Optimistic locking: the stored version must be the one before. */
    method UpdateAppSession(id: Id, session: Session) returns (ok: bool)
      modifies this`sessions
      ensures ok <==> id in old(sessions) && old(sessions)[id].version + 1 == session.version
      ensures Snapshot() == if ok then old(Snapshot()).(sessions := old(sessions)[id := session]) else old(Snapshot())
    {
      if id !in sessions || sessions[id].version + 1 != session.version { return false; }
      sessions := sessions[id := session];
      return true;
    }
  }
}
