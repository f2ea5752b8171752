/**
 * The rule engine's variable manager: a cache in front of a durable
 * key-value store. Variables live in the store under the key "var~" + name,
 * JSON-encoded; a write goes to the cache first and then through to the store.
 */
module Variables {
  import opened Values

  const VarPrefix: string := "var~"

  /** The store key of a variable. */
  function StoreKey(name: string): string
  {
    VarPrefix + name
  }

  /** Different variables never share a store key. */
  lemma StoreKeyInjective(a: string, b: string)
    ensures StoreKey(a) == StoreKey(b) <==> a == b
  {
    if StoreKey(a) == StoreKey(b) {
      assert a == StoreKey(a)[|VarPrefix|..];
      assert b == StoreKey(b)[|VarPrefix|..];
    }
  }

  /**
   * The durable store: the values held under each key (the JSON text is
   * abstracted to the value it encodes) and whether the database is failing,
   * in which case every read and every write returns an error.
   */
  datatype Store = Store(data: map<string, Value>, failing: bool)

  /** A store read: nothing when the database fails or the key is missing. */
  function StoreRead(st: Store, key: string): Option<Value>
  {
    if st.failing || key !in st.data then None else Some(st.data[key])
  }

  /** A store write: the key is updated unless the database fails. */
  function StoreWrite(st: Store, key: string, v: Value): Written<Store>
  {
    if st.failing then Written(st, Some(Failure(StoreWriteFailed(key))))
    else Written(st.(data := st.data[key := v]), None)
  }

  /** The manager's state: its cache and the store behind it. */
  datatype Vars = Vars(cache: map<string, Value>, store: Store)

  /** Only JSON-encodable values ever reach the cache or the store. */
  predicate VarsOk(m: Vars)
  {
    (forall k | k in m.cache :: IsData(m.cache[k]))
    && (forall k | k in m.store.data :: IsData(m.store.data[k]))
  }

  /** `VariableManager.Get`: the cache first, then the store; a store miss is an undefined symbol. */
  function Lookup(m: Vars, name: string): Result<Value>
  {
    if name in m.cache then Ok(m.cache[name])
    else match StoreRead(m.store, StoreKey(name))
      case None => Err(Failure(UndefinedSymbol(name)))
      case Some(v) => Ok(v)
  }

  /**
   * `VariableManager.Set`: nothing happens when the variable already holds an
   * equal value; otherwise the value is encoded, cached and written through.
   * Comparing two slices or two functions panics, as Go's `==` does.
   */
  function Assign(m: Vars, name: string, v: Value): Written<Vars>
  {
    var prev := Lookup(m, name);
    if prev.Ok? && GoEqual(prev.value, v).None? then Written(m, Some(Panic("comparing uncomparable type")))
    else if prev.Ok? && GoEqual(prev.value, v) == Some(true) then Written(m, None)
    else if !IsData(v) then Written(m, Some(Failure(Unencodable(v))))
    else
      var w := StoreWrite(m.store, StoreKey(name), v);
      Written(Vars(m.cache[name := v], w.state), w.err)
  }

  /** A cached variable is answered from the cache, whatever the store holds. */
  lemma LookupPrefersCache(m: Vars, name: string, st: Store)
    requires name in m.cache
    ensures Lookup(m.(store := st), name) == Ok(m.cache[name])
  {
  }

  /** An uncached variable is read from the store; a missing key or a failing store is an undefined symbol. */
  lemma LookupReadsStore(m: Vars, name: string)
    requires name !in m.cache
    ensures Lookup(m, name).Ok? <==> !m.store.failing && StoreKey(name) in m.store.data
    ensures Lookup(m, name).Ok? ==> Lookup(m, name).value == m.store.data[StoreKey(name)]
    ensures Lookup(m, name).Err? ==> Lookup(m, name).error == Failure(UndefinedSymbol(name))
  {
  }

  /** Setting a variable to the (comparable) value it already has changes nothing and writes nothing. */
  lemma AssignSameIsNoOp(m: Vars, name: string, v: Value)
    requires Lookup(m, name) == Ok(v) && Comparable(KindOf(v))
    ensures Assign(m, name, v) == Written(m, None)
  {
  }

  /**
   * Setting a new encodable value caches it and writes it through under the
   * prefixed key; a failing store leaves the store as it was and reports the
   * failure, but the cache has been updated all the same.
   */
  lemma AssignWritesThrough(m: Vars, name: string, v: Value)
    requires IsData(v)
    requires Lookup(m, name).Err? || GoEqual(Lookup(m, name).value, v) == Some(false)
    ensures Assign(m, name, v).state.cache == m.cache[name := v]
    ensures !m.store.failing ==> Assign(m, name, v) == Written(Vars(m.cache[name := v], Store(m.store.data[StoreKey(name) := v], false)), None)
    ensures m.store.failing ==> Assign(m, name, v) == Written(Vars(m.cache[name := v], m.store), Some(Failure(StoreWriteFailed(StoreKey(name)))))
  {
  }

  /** A value that cannot be encoded is refused without touching the cache or the store. */
  lemma AssignRefusesFunctions(m: Vars, name: string, v: Value)
    requires !IsData(v) && (Lookup(m, name).Err? || KindOf(Lookup(m, name).value) != KindOf(v))
    ensures Assign(m, name, v) == Written(m, Some(Failure(Unencodable(v))))
  {
  }

  /** After a set that did not panic or fail to encode, a get returns the value, even if the store write failed. */
  lemma AssignThenLookup(m: Vars, name: string, v: Value)
    requires Assign(m, name, v).err.None? || Assign(m, name, v).err == Some(Failure(StoreWriteFailed(StoreKey(name))))
    ensures Lookup(Assign(m, name, v).state, name) == Ok(v)
  {
  }

  /** A set leaves every other variable as it was, in the cache and in the store. */
  lemma AssignLeavesOthers(m: Vars, name: string, other: string, v: Value)
    requires other != name
    ensures Lookup(Assign(m, name, v).state, other) == Lookup(m, other)
    ensures other in m.cache ==> Assign(m, name, v).state.cache[other] == m.cache[other]
    ensures other !in m.cache ==> other !in Assign(m, name, v).state.cache
  {
    StoreKeyInjective(name, other);
  }

  /** The cache and the store only ever hold encodable values. */
  lemma AssignKeepsVarsOk(m: Vars, name: string, v: Value)
    requires VarsOk(m)
    ensures VarsOk(Assign(m, name, v).state)
  {
  }

  /** What a successful lookup returns is encodable data. */
  lemma LookupIsData(m: Vars, name: string)
    requires VarsOk(m) && Lookup(m, name).Ok?
    ensures IsData(Lookup(m, name).value)
  {
  }

  /** The BoltDB-backed store, with its data and its failure mode as fields. */
  class KvStore {
    var data: map<string, Value>
    var failing: bool

    function State(): Store
      reads this
    {
      Store(data, failing)
    }

    constructor (data: map<string, Value>, failing: bool)
      ensures State() == Store(data, failing)
    {
      this.data := data;
      this.failing := failing;
    }

    method Get(key: string) returns (r: Option<Value>)
      ensures r == StoreRead(State(), key)
    {
      if failing || key !in data {
        return None;
      }
      return Some(data[key]);
    }

    method Set(key: string, v: Value) returns (err: Option<Error>)
      modifies this
      ensures State() == StoreWrite(old(State()), key, v).state
      ensures err == StoreWrite(old(State()), key, v).err
    {
      if failing {
        return Some(Failure(StoreWriteFailed(key)));
      }
      data := data[key := v];
      return None;
    }
  }

  /** The variable manager: a cache map updated in place, in front of the store. */
  class VariableManager {
    var cache: map<string, Value>
    const store: KvStore

    function State(): Vars
      reads this, store
    {
      Vars(cache, store.State())
    }

    /** `GetManager`'s first call: an empty cache over the store. */
    constructor (store: KvStore)
      ensures this.store == store && cache == map[]
    {
      this.store := store;
      cache := map[];
    }

    method Get(name: string) returns (r: Result<Value>)
      ensures r == Lookup(State(), name)
    {
      if name in cache {
        return Ok(cache[name]);
      }
      var b := store.Get(StoreKey(name));
      if b.None? {
        return Err(Failure(UndefinedSymbol(name)));
      }
      return Ok(b.value);
    }

    method Set(name: string, v: Value) returns (err: Option<Error>)
      modifies this, store
      ensures State() == Assign(old(State()), name, v).state
      ensures err == Assign(old(State()), name, v).err
    {
      var prev := Get(name);
      if prev.Ok? {
        var same := GoEqual(prev.value, v);
        if same.None? {
          return Some(Panic("comparing uncomparable type"));
        }
        if same.value {
          return None;
        }
      }
      if !IsData(v) {
        return Some(Failure(Unencodable(v)));
      }
      cache := cache[name := v];
      err := store.Set(StoreKey(name), v);
    }
  }
}
