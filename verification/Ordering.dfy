/** The order in which strings are sorted, and in which user states are locked. */
module Ordering {
  import opened Channels
  import opened Chains
  import opened Allocations

  /** Lexicographic order of strings. */
  predicate Less(a: string, b: string) {
    b != "" && (a == "" || a[0] < b[0] || (a[0] == b[0] && Less(a[1..], b[1..])))
  }

  lemma {:induction false} LessTransitive(a: string, b: string, c: string)
    requires Less(a, b) && Less(b, c)
    ensures Less(a, c)
  {
    if a != "" && a[0] == b[0] && b[0] == c[0] {
      LessTransitive(a[1..], b[1..], c[1..]);
    }
  }

  lemma {:induction false} LessTotal(a: string, b: string)
    ensures a == b || Less(a, b) || Less(b, a)
  {
    if a != "" && b != "" && a[0] == b[0] {
      LessTotal(a[1..], b[1..]);
      assert a[1..] == b[1..] ==> a == [a[0]] + a[1..] == b;
    }
  }

  lemma {:induction false} LessIrreflexive(a: string)
    ensures !Less(a, a)
  {
    if a != "" {
      LessIrreflexive(a[1..]);
    }
  }

  /** User states are locked by wallet first, and by asset second. */
  predicate KeyLess(a: Key, b: Key) {
    Less(a.wallet, b.wallet) || (a.wallet == b.wallet && Less(a.asset, b.asset))
  }

  lemma KeyLessTransitive(a: Key, b: Key, c: Key)
    requires KeyLess(a, b) && KeyLess(b, c)
    ensures KeyLess(a, c)
  {
    if Less(a.wallet, b.wallet) && Less(b.wallet, c.wallet) {
      LessTransitive(a.wallet, b.wallet, c.wallet);
    }
    LessIrreflexive(a.wallet);
    if a.wallet == b.wallet == c.wallet {
      LessTransitive(a.asset, b.asset, c.asset);
    }
  }

  lemma KeyLessTotal(a: Key, b: Key)
    ensures a == b || KeyLess(a, b) || KeyLess(b, a)
  {
    LessTotal(a.wallet, b.wallet);
    LessTotal(a.asset, b.asset);
  }

  lemma KeyLessIrreflexive(a: Key)
    ensures !KeyLess(a, a)
  {
    LessIrreflexive(a.wallet);
    LessIrreflexive(a.asset);
  }

  predicate Increasing(s: seq<string>) {
    forall i, j :: 0 <= i < j < |s| ==> Less(s[i], s[j])
  }

  predicate KeysIncrease(s: seq<Key>) {
    forall i, j :: 0 <= i < j < |s| ==> KeyLess(s[i], s[j])
  }

  /** Puts a new string in its place. */
  method Insert(sorted: seq<string>, s: string) returns (r: seq<string>)
    requires Increasing(sorted) && s !in sorted
    ensures Increasing(r) && forall x :: x in r <==> x in sorted || x == s
  {
    var i := 0;
    while i < |sorted| && !Less(s, sorted[i])
      invariant 0 <= i <= |sorted|
      invariant forall j :: 0 <= j < i ==> Less(sorted[j], s)
    {
      LessTotal(sorted[i], s);
      i := i + 1;
    }
    Inserted(sorted, s, i);
    r := sorted[..i] + [s] + sorted[i..];
  }

  lemma Inserted(sorted: seq<string>, s: string, i: nat)
    requires Increasing(sorted) && i <= |sorted| && forall j :: 0 <= j < i ==> Less(sorted[j], s)
    requires i < |sorted| ==> Less(s, sorted[i])
    ensures var r := sorted[..i] + [s] + sorted[i..]; Increasing(r) && forall x :: x in r <==> x in sorted || x == s
  {
    forall j | i < j < |sorted| ensures Less(s, sorted[j]) {
      LessTransitive(s, sorted[i], sorted[j]);
    }
    assert sorted == sorted[..i] + sorted[i..];
  }

  method SortStrings(keys: set<string>) returns (sorted: seq<string>)
    ensures Increasing(sorted) && forall s :: s in sorted <==> s in keys
  {
    sorted := [];
    var rest := keys;
    while rest != {}
      invariant rest <= keys && Increasing(sorted)
      invariant forall s :: s in sorted <==> s in keys - rest
      decreases |rest|
    {
      var s :| s in rest;
      sorted := Insert(sorted, s);
      rest := rest - {s};
    }
  }

  function KeyAt(k: Slot): Key {
    Key(k.wallet, k.asset)
  }

  /** The chains that belong to slots, in their order. */
  function KeysAt(slots: seq<Slot>): seq<Key> {
    seq(|slots|, i requires 0 <= i < |slots| => KeyAt(slots[i]))
  }

  function SlotsFor(session: Id, wallet: Wallet, assets: seq<Asset>): seq<Slot> {
    seq(|assets|, i requires 0 <= i < |assets| => Slot(session, wallet, assets[i]))
  }

  lemma SlotsForHas(session: Id, wallet: Wallet, assets: seq<Asset>, k: Slot)
    ensures k in SlotsFor(session, wallet, assets) <==> k.session == session && k.wallet == wallet && k.asset in assets
  {
    if k.session == session && k.wallet == wallet && k.asset in assets {
      var i :| 0 <= i < |assets| && assets[i] == k.asset;
      assert SlotsFor(session, wallet, assets)[i] == k;
    }
  }

  /** The slots of one more wallet come after those of smaller wallets. */
  lemma SlotsAppend(slots: seq<Slot>, session: Id, wallet: Wallet, assets: seq<Asset>)
    requires KeysIncrease(KeysAt(slots)) && Increasing(assets)
    requires forall k :: k in slots ==> Less(k.wallet, wallet)
    ensures KeysIncrease(KeysAt(slots + SlotsFor(session, wallet, assets)))
  {
    var more := slots + SlotsFor(session, wallet, assets);
    var keys := KeysAt(more);
    forall i, j | 0 <= i < j < |keys| ensures KeyLess(keys[i], keys[j]) {
      if j < |slots| {
        assert keys[i] == KeysAt(slots)[i] && keys[j] == KeysAt(slots)[j];
      } else if i < |slots| {
        assert more[i] in slots;
      }
    }
  }

  /** The slots of a session, sorted by participant and then by asset. */
  method SortedSlots(session: Id, cur: map<Slot, real>) returns (slots: seq<Slot>)
    requires forall k :: k in cur ==> k.session == session
    ensures forall k :: k in slots <==> k in cur
    ensures KeysIncrease(KeysAt(slots))
  {
    slots := [];
    var participants := SortStrings(set k | k in cur :: k.wallet);
    for i := 0 to |participants|
      invariant KeysIncrease(KeysAt(slots))
      invariant forall k :: k in slots <==> k in cur && k.wallet in participants[..i]
    {
      var wallet := participants[i];
      var assets := SortStrings(set k | k in cur && k.wallet == wallet :: k.asset);
      forall k | k in slots ensures Less(k.wallet, wallet) {
        var j :| 0 <= j < i && participants[j] == k.wallet;
      }
      SlotsAppend(slots, session, wallet, assets);
      ghost var before := slots;
      slots := slots + SlotsFor(session, wallet, assets);
      forall k ensures k in slots <==> k in cur && k.wallet in participants[..i + 1] {
        assert participants[..i + 1] == participants[..i] + [wallet];
        SlotsForHas(session, wallet, assets, k);
      }
    }
    assert participants[..|participants|] == participants;
    forall k | k in cur ensures k.wallet in participants {
      assert k.wallet in set k | k in cur :: k.wallet;
    }
  }
}
