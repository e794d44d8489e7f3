/** The key/value store that the response cache and the invalidation helper
    talk to (a Redis client in the system). Keys and values are strings,
    every entry carries the clock time at which it expires, and the clock
    counts whole seconds. A store that cannot be reached answers every
    command with a fault. */
module KeyValueStore {
  import opened Wrappers

  datatype Entry = Entry(value: string, expiresAt: int)

  /** The whole observable state of the store. */
  datatype StoreState = StoreState(entries: map<string, Entry>, now: int, up: bool)

  /** The answer to a GET: the stored text, nil, or a fault (the client threw). */
  datatype GetReply = Value(text: string) | Nil | Fault

  /** The commands the application sends to the store, in the order it sends them. */
  datatype Command =
    | GetCmd(key: string)
    | SetExCmd(key: string, ttl: int, value: string)
    | KeysCmd(pattern: string)
    | DelCmd(keys: set<string>)

  predicate IsPrefix(p: string, s: string) {
    |p| <= |s| && s[..|p|] == p
  }

  /** An entry is visible until its expiry time is reached. */
  predicate IsLive(st: StoreState, k: string) {
    k in st.entries && st.now < st.entries[k].expiresAt
  }

  /** GET key. */
  function Lookup(st: StoreState, key: string): GetReply {
    if !st.up then Fault
    else if IsLive(st, key) then Value(st.entries[key].value)
    else Nil
  }

  /** SETEX key ttl value: replaces the entry and restarts its expiry; the
      store refuses a ttl that is not positive, and a fault writes nothing. */
  function Written(st: StoreState, key: string, ttl: int, value: string): StoreState {
    if st.up && ttl > 0 then st.(entries := st.entries[key := Entry(value, st.now + ttl)])
    else st
  }

  /** KEYS prefix*: the live keys that start with the prefix. */
  function MatchingKeys(st: StoreState, prefix: string): set<string> {
    set k | k in st.entries && IsLive(st, k) && IsPrefix(prefix, k)
  }

  /** DEL k1 k2 ...: the entries are removed. */
  function Deleted(st: StoreState, keys: set<string>): StoreState {
    if st.up then st.(entries := st.entries - keys) else st
  }

  /** The clock moves on by `dt` seconds. */
  function Advanced(st: StoreState, dt: nat): StoreState {
    st.(now := st.now + dt)
  }

  /** A value written with a positive ttl is read back unchanged until the
      clock has moved on by ttl seconds, and is gone from then on. */
  lemma WrittenThenRead(st: StoreState, key: string, ttl: int, value: string, dt: nat)
    requires st.up && ttl > 0
    ensures Lookup(Advanced(Written(st, key, ttl, value), dt), key)
            == if dt < ttl then Value(value) else Nil
  {
  }

  /** Writing one key leaves every other key's entry as it was. */
  lemma WrittenKeepsOtherKeys(st: StoreState, key: string, ttl: int, value: string, k: string)
    requires k != key
    ensures Lookup(Written(st, key, ttl, value), k) == Lookup(st, k)
  {
  }

  class Store {
    var entries: map<string, Entry>
    var now: int
    var up: bool
    /** Every command sent to this store so far. */
    ghost var issued: seq<Command>

    function State(): StoreState
      reads this
    {
      StoreState(entries, now, up)
    }

    constructor ()
      ensures State() == StoreState(map[], 0, true) && issued == []
    {
      entries := map[];
      now := 0;
      up := true;
      issued := [];
    }

    method Get(key: string) returns (r: GetReply)
      modifies this`issued
      ensures r == Lookup(State(), key)
      ensures issued == old(issued) + [GetCmd(key)]
    {
      issued := issued + [GetCmd(key)];
      if !up {
        r := Fault;
      } else if key in entries && now < entries[key].expiresAt {
        r := Value(entries[key].value);
      } else {
        r := Nil;
      }
    }

    method SetEx(key: string, ttl: int, value: string)
      modifies this`entries, this`issued
      ensures State() == Written(old(State()), key, ttl, value)
      ensures issued == old(issued) + [SetExCmd(key, ttl, value)]
    {
      issued := issued + [SetExCmd(key, ttl, value)];
      if up && ttl > 0 {
        entries := entries[key := Entry(value, now + ttl)];
      }
    }

    /** KEYS with the glob `prefix*`; a fault answers None (the call threw). */
    method KeysWithPrefix(prefix: string) returns (r: Option<set<string>>)
      modifies this`issued
      ensures r == if up then Some(MatchingKeys(State(), prefix)) else None
      ensures issued == old(issued) + [KeysCmd(prefix + "*")]
    {
      issued := issued + [KeysCmd(prefix + "*")];
      if up {
        r := Some(MatchingKeys(State(), prefix));
      } else {
        r := None;
      }
    }

    /** DEL; answers false when the call threw. */
    method Del(keys: set<string>) returns (ok: bool)
      modifies this`entries, this`issued
      ensures ok == old(up)
      ensures State() == Deleted(old(State()), keys)
      ensures issued == old(issued) + [DelCmd(keys)]
    {
      issued := issued + [DelCmd(keys)];
      ok := up;
      if up {
        entries := entries - keys;
      }
    }

    method Tick(dt: nat)
      modifies this`now
      ensures State() == Advanced(old(State()), dt)
    {
      now := now + dt;
    }

    /** The connection to the store is lost (false) or restored (true). */
    method SetReachable(reachable: bool)
      modifies this`up
      ensures State() == old(State()).(up := reachable)
    {
      up := reachable;
    }
  }
}
