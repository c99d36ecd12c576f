/**
 * The SDK's persistent-data store backed by the framework session
 * (Service/SymfonySessionPersistentDataHandler.php). Every key the SDK uses
 * is stored in the session under "FBRLH_" + key, so the SDK's entries
 * cannot collide with the application's own session keys unless those
 * start with the prefix.
 */
module SessionStorage {
  import opened Values

  const SESSION_PREFIX := "FBRLH_"

  /** getPrefixedKey. */
  function PrefixedKey(key: string): string {
    SESSION_PREFIX + key
  }

  /** The prefix is stripped back off: prefixing loses nothing. */
  lemma PrefixedKeyStrips(key: string)
    ensures |PrefixedKey(key)| == |SESSION_PREFIX| + |key|
    ensures PrefixedKey(key)[..|SESSION_PREFIX|] == SESSION_PREFIX
    ensures PrefixedKey(key)[|SESSION_PREFIX|..] == key
  {
  }

  /** Distinct keys are stored under distinct session names. */
  lemma PrefixedKeyInjective(a: string, b: string)
    ensures PrefixedKey(a) == PrefixedKey(b) ==> a == b
  {
    PrefixedKeyStrips(a);
    PrefixedKeyStrips(b);
  }

  /** The handler's `get(key)` over a session store. */
  function Read(store: map<string, Value>, key: string): Value {
    Lookup(store, PrefixedKey(key))
  }

  /** The handler's `set(key, value)` over a session store. */
  function Write(store: map<string, Value>, key: string, value: Value): map<string, Value> {
    store[PrefixedKey(key) := value]
  }

  /** Round trip: after set(k, v), get(k) returns v. */
  lemma ReadAfterWrite(store: map<string, Value>, key: string, value: Value)
    ensures Read(Write(store, key, value), key) == value
  {
  }

  /** set(k, v) leaves every other handler key as it was. */
  lemma WriteKeepsOtherKeys(store: map<string, Value>, key: string, other: string, value: Value)
    requires other != key
    ensures Read(Write(store, key, value), other) == Read(store, other)
  {
    PrefixedKeyInjective(key, other);
  }

  /**
   * set(k, v) leaves every other session name as it was, including the
   * application's own, unprefixed entries.
   */
  lemma WriteKeepsOtherSessionNames(store: map<string, Value>, key: string, value: Value, name: string)
    requires name != PrefixedKey(key)
    ensures Lookup(Write(store, key, value), name) == Lookup(store, name)
    ensures Write(store, key, value).Keys == store.Keys + {PrefixedKey(key)}
  {
  }

  /** Last write wins: set(k, v1) then set(k, v2) is set(k, v2). */
  lemma LastWriteWins(store: map<string, Value>, key: string, v1: Value, v2: Value)
    ensures Write(Write(store, key, v1), key, v2) == Write(store, key, v2)
    ensures Read(Write(Write(store, key, v1), key, v2), key) == v2
  {
  }

  /** The host framework's session: a key/value store shared by the application. */
  class Session {
    var store: map<string, Value>

    constructor (store: map<string, Value>)
      ensures this.store == store
    {
      this.store := store;
    }
  }

  class SymfonySessionPersistentDataHandler {
    const session: Session

    constructor (session: Session)
      ensures this.session == session
    {
      this.session := session;
    }

    /** get: reads the session name "FBRLH_" + key. */
    method Get(key: string) returns (value: Value)
      ensures value == Read(session.store, key)
    {
      var name := PrefixedKey(key);
      value := if name in session.store then session.store[name] else Null;
    }

    /** set: writes `value` under the session name "FBRLH_" + key and nothing else. */
    method Set(key: string, value: Value)
      modifies session
      ensures session.store == Write(old(session.store), key, value)
    {
      session.store := session.store[PrefixedKey(key) := value];
    }
  }
}
