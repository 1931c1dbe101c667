/** A process-local cache with expiry times and lazy eviction. */
module InMemoryCache {
  import opened Values

  datatype Entry = Entry(value: Value, expiresAt: Option<real>)

  type Store = map<string, Entry>

  predicate Expired(e: Entry, now: real) {
    e.expiresAt.Some? && e.expiresAt.value <= now
  }

  /** A ttl of zero or less means no expiry, like no ttl at all. */
  function EntryFor(value: Value, ttl: Option<int>, now: real): Entry {
    Entry(value, if ttl.Some? && ttl.value > 0 then Some(now + ttl.value as real) else None)
  }

  ghost function AfterGet(s: Store, key: string, now: real): Store {
    if key in s && Expired(s[key], now) then s - {key} else s
  }

  ghost function Found(s: Store, key: string, now: real): Option<Value> {
    if key in s && !Expired(s[key], now) then Some(s[key].value) else None
  }

  ghost function WithPrefix(s: Store, prefix: string): set<string> {
    set k | k in s && prefix <= k
  }

  class Cache {
    var store: Store

    constructor ()
      ensures store == map[]
    {
      store := map[];
    }

    method Get(key: string, now: real) returns (r: Option<Value>)
      modifies this
      ensures r == Found(old(store), key, now) && store == AfterGet(old(store), key, now)
    {
      if key !in store {
        return None;
      }
      var entry := store[key];
      if Expired(entry, now) {
        store := store - {key};
        return None;
      }
      return Some(entry.value);
    }

    /** `serialisable` says which values `json.dumps` accepts; for the others `set` raises. */
    method Set(
      key: string, value: Value, ttl: Option<int>, now: real, serialisable: Value -> bool)
      returns (raised: bool)
      modifies this
      ensures raised <==> !serialisable(value)
      ensures store == if raised then old(store) else old(store)[key := EntryFor(value, ttl, now)]
    {
      if !serialisable(value) {
        return true;
      }
      store := store[key := EntryFor(value, ttl, now)];
      return false;
    }

    method Delete(key: string)
      modifies this
      ensures store == old(store) - {key}
    {
      store := store - {key};
    }

    /** Removes precisely the stored keys with the prefix and returns their number. */
    method ClearPrefix(prefix: string) returns (count: nat)
      modifies this
      ensures store == old(store) - WithPrefix(old(store), prefix)
      ensures count == |WithPrefix(old(store), prefix)|
    {
      var keys := set k | k in store && prefix <= k;
      count := |keys|;
      var rest := keys;
      while rest != {}
        invariant rest <= keys && store == old(store) - (keys - rest)
        decreases |rest|
      {
        var k :| k in rest;
        store := store - {k};
        rest := rest - {k};
        assert old(store) - (keys - (rest + {k})) - {k} == old(store) - (keys - rest);
      }
    }
  }

  // ----- the ideal cache: a map with expiry times from which time alone removes nothing

  datatype Operation =
    | Get(key: string, now: real)
    | Set(key: string, value: Value, ttl: Option<int>, now: real, accepted: bool)
    | Delete(key: string, now: real)
    | ClearPrefix(prefix: string, now: real)

  ghost function Perform(s: Store, op: Operation): Store {
    match op
    case Get(key, now) => AfterGet(s, key, now)
    case Set(key, value, ttl, now, accepted) => if accepted then s[key := EntryFor(value, ttl, now)] else s
    case Delete(key, _) => s - {key}
    case ClearPrefix(prefix, _) => s - WithPrefix(s, prefix)
  }

  ghost function PerformIdeal(s: Store, op: Operation): Store {
    if op.Get? then s else Perform(s, op)
  }

  ghost function Run(ops: seq<Operation>): Store {
    if ops == [] then map[] else Perform(Run(ops[..|ops| - 1]), ops[|ops| - 1])
  }

  ghost function RunIdeal(ops: seq<Operation>): Store {
    if ops == [] then map[] else PerformIdeal(RunIdeal(ops[..|ops| - 1]), ops[|ops| - 1])
  }

  ghost predicate Monotone(ops: seq<Operation>) {
    forall i, j :: 0 <= i <= j < |ops| ==> ops[i].now <= ops[j].now
  }

  /** The store is the ideal one without some entries that have expired by `now`. */
  ghost predicate LacksOnlyExpired(s: Store, ideal: Store, now: real) {
    && (forall k :: k in s ==> k in ideal && s[k] == ideal[k])
    && (forall k :: k in ideal && k !in s ==> Expired(ideal[k], now))
  }

  lemma StepKeepsAgreement(s: Store, ideal: Store, before: real, op: Operation)
    requires LacksOnlyExpired(s, ideal, before) && before <= op.now
    ensures LacksOnlyExpired(Perform(s, op), PerformIdeal(ideal, op), op.now)
  {}

  lemma {:induction false} StoreLacksOnlyExpired(ops: seq<Operation>)
    requires Monotone(ops)
    ensures LacksOnlyExpired(Run(ops), RunIdeal(ops), if ops == [] then 0.0 else ops[|ops| - 1].now)
  {
    if |ops| > 1 {
      StoreLacksOnlyExpired(ops[..|ops| - 1]);
      StepKeepsAgreement(Run(ops[..|ops| - 1]), RunIdeal(ops[..|ops| - 1]), ops[|ops| - 2].now, ops[|ops| - 1]);
    } else if ops != [] {
      assert ops[..0] == [];
      StepKeepsAgreement(map[], map[], ops[0].now, ops[0]);
    }
  }

  /** After every sequence of operations under a clock that never goes back, `get` answers at every later time
      what the ideal cache would: eviction is invisible. */
  lemma {:induction false} GetRefinesIdeal(ops: seq<Operation>, key: string, now: real)
    requires Monotone(ops) && (ops != [] ==> ops[|ops| - 1].now <= now)
    ensures Found(Run(ops), key, now) == Found(RunIdeal(ops), key, now)
  {
    StoreLacksOnlyExpired(ops);
  }

  ghost function Live(s: Store, prefix: string, now: real): set<string> {
    set k | k in s && prefix <= k && !Expired(s[k], now)
  }

  /** The number that `clear_prefix` returns does show eviction: it counts the live keys and besides them the
      expired ones that no `get` has met yet. */
  lemma {:induction false} ClearCountsLiveExactlyWhen(ops: seq<Operation>, prefix: string, now: real)
    requires Monotone(ops) && (ops != [] ==> ops[|ops| - 1].now <= now)
    ensures var s, live := Run(ops), Live(RunIdeal(ops), prefix, now);
            && live <= WithPrefix(s, prefix)
            && (|WithPrefix(s, prefix)| == |live| <==> forall k :: k in s && prefix <= k ==> !Expired(s[k], now))
  {
    StoreLacksOnlyExpired(ops);
    var s, live := Run(ops), Live(RunIdeal(ops), prefix, now);
    var stale := WithPrefix(s, prefix) - live;
    assert WithPrefix(s, prefix) == live + stale;
    if |WithPrefix(s, prefix)| == |live| {
      assert stale == {};
      forall k | k in s && prefix <= k ensures !Expired(s[k], now) {
        assert k in WithPrefix(s, prefix) && k !in stale;
      }
    }
    if forall k :: k in s && prefix <= k ==> !Expired(s[k], now) {
      assert stale == {};
    }
  }

  const KEY := "rag:1"

  lemma RunOne(op: Operation)
    ensures Run([op]) == Perform(map[], op) && RunIdeal([op]) == PerformIdeal(map[], op)
  {
    assert [op][..0] == [];
  }

  lemma RunTwo(first: Operation, second: Operation)
    ensures Run([first, second]) == Perform(Perform(map[], first), second)
    ensures RunIdeal([first, second]) == PerformIdeal(PerformIdeal(map[], first), second)
  {
    RunOne(first);
    assert [first, second][..1] == [first];
  }

  /** Set with ten seconds to live, expired, cleared: the number is 1, and 0 if a `get` came in between, while the
      ideal cache is the same and nothing in it is live. */
  lemma GetChangesCount(value: Value)
    ensures var set_, get := Set(KEY, value, Some(10), 0.0, true), Get(KEY, 20.0);
            && Monotone([set_, get])
            && |WithPrefix(Run([set_]), "rag:")| == 1 && |WithPrefix(Run([set_, get]), "rag:")| == 0
            && RunIdeal([set_]) == RunIdeal([set_, get]) && Live(RunIdeal([set_]), "rag:", 20.0) == {}
  {
    var set_, get := Set(KEY, value, Some(10), 0.0, true), Get(KEY, 20.0);
    RunOne(set_);
    RunTwo(set_, get);
    assert Run([set_]) == map[KEY := Entry(value, Some(10.0))];
    assert Run([set_, get]) == map[];
    assert "rag:" <= KEY;
    assert WithPrefix(Run([set_]), "rag:") == {KEY};
    assert WithPrefix(Run([set_, get]), "rag:") == {};
  }
}
