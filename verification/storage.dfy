/**
 * The `@UserDefaultsStorage` property wrapper's engine: the per-binding
 * `UserDefaultsStorageObject` (register on construction, write-notify-flush
 * on assignment, scheduled deregistration on teardown) and the `syncGet` /
 * `syncSet` pairs the typed initialisers build.
 */
module Storage {
  import opened Wrappers
  import opened UserDefaults
  import opened SyncStatus
  import opened MainQueue
  import opened KeyObservers
  import opened Sync

  /**
   * The closures a typed initialiser builds: `read` is `syncGet`; `syncSet`
   * hands `encode(v)` to one of the hub's setters under `writeKey`. Overload
   * resolution decides which: a typed setter, which marks a local change
   * (`marksLocalChange`), or, for a value type the hub has no typed setter
   * for, the untyped `set(_ object:for:)`, which leaves the status alone.
   */
  datatype Accessor<!V> = Accessor(writeKey: string, read: Store -> V, encode: V -> Option<StoredValue>, marksLocalChange: bool)

  /** Whatever is written through the accessor is read back unchanged. */
  ghost predicate RoundTrips<V(!new)>(a: Accessor<V>) {
    forall s: Store, v: V :: a.read(Put(s, a.writeKey, a.encode(v))) == v
  }

  /** With the key absent, the accessor reads `d`. */
  ghost predicate AbsentReads<V>(a: Accessor<V>, d: V) {
    forall s: Store :: a.writeKey !in s ==> a.read(s) == d
  }

  // Non-optional wrappers, `init(wrappedValue:_:)`: `get(key) ?? wrappedValue`.

  function BoolStorage(wrappedValue: bool, key: string): (a: Accessor<bool>)
    ensures a.writeKey == key && a.marksLocalChange && AbsentReads(a, wrappedValue) && RoundTrips(a)
  {
    Accessor(key, s => Bool(s, key).GetOr(wrappedValue), v => Some(EncodeBool(v)), true)
  }

  function IntStorage(wrappedValue: int, key: string): (a: Accessor<int>)
    ensures a.writeKey == key && a.marksLocalChange && AbsentReads(a, wrappedValue) && RoundTrips(a)
  {
    Accessor(key, s => Int(s, key).GetOr(wrappedValue), v => Some(EncodeInt(v)), true)
  }

  function DoubleStorage(wrappedValue: Double, key: string): (a: Accessor<Double>)
    ensures a.writeKey == key && a.marksLocalChange && AbsentReads(a, wrappedValue) && RoundTrips(a)
  {
    Accessor(key, s => DoubleValue(s, key).GetOr(wrappedValue), v => Some(EncodeDouble(v)), true)
  }

  /** A stored value that is not a string also reads as the default. */
  function StringStorage(wrappedValue: string, key: string): (a: Accessor<string>)
    ensures a.writeKey == key && a.marksLocalChange && AbsentReads(a, wrappedValue) && RoundTrips(a)
    ensures forall s: Store :: key in s && !s[key].Text? ==> a.read(s) == wrappedValue
  {
    Accessor(key, s => String(s, key).GetOr(wrappedValue), v => Some(EncodeString(v)), true)
  }

  /**
   * A stored value that is not a date also reads as the default. The hub has
   * no typed setter for `Date`, so writes go through the untyped
   * `set(_ object:for:)` and leave the status as it was.
   */
  function DateStorage(wrappedValue: Date, key: string): (a: Accessor<Date>)
    ensures a.writeKey == key && !a.marksLocalChange && AbsentReads(a, wrappedValue) && RoundTrips(a)
    ensures forall s: Store :: key in s && !s[key].Moment? ==> a.read(s) == wrappedValue
  {
    Accessor(key, s => DateValue(s, key).GetOr(wrappedValue), v => Some(EncodeDate(v)), false)
  }

  /** A stored value that is not data also reads as the default. */
  function DataStorage(wrappedValue: seq<bv8>, key: string): (a: Accessor<seq<bv8>>)
    ensures a.writeKey == key && a.marksLocalChange && AbsentReads(a, wrappedValue) && RoundTrips(a)
    ensures forall s: Store :: key in s && !s[key].Bytes? ==> a.read(s) == wrappedValue
  {
    Accessor(key, s => Data(s, key).GetOr(wrappedValue), v => Some(EncodeData(v)), true)
  }

  /**
   * Int-backed raw-representable wrapper: `int(for:).flatMap(Value.init) ??
   * wrappedValue`. Falls back when the key is absent and when the stored
   * integer matches no case; round-trips whenever `init(rawValue:)` inverts
   * `rawValue`.
   */
  function RawIntStorage<R(!new)>(wrappedValue: R, key: string, fromRaw: int -> Option<R>, toRaw: R -> int): (a: Accessor<R>)
    ensures a.writeKey == key && a.marksLocalChange && AbsentReads(a, wrappedValue)
    ensures forall s: Store :: key in s && fromRaw(IntegerOf(s[key])).None? ==> a.read(s) == wrappedValue
    ensures (forall v :: fromRaw(toRaw(v)) == Some(v)) ==> RoundTrips(a)
  {
    Accessor(key,
      s => Int(s, key).FlatMap(fromRaw).GetOr(wrappedValue),
      v => Some(EncodeInt(toRaw(v))),
      true)
  }

  /**
   * String-backed raw-representable wrapper: `string(for:).flatMap(Value.init)
   * ?? wrappedValue`. Falls back when no string is stored and when the stored
   * string matches no case.
   */
  function RawStringStorage<R(!new)>(wrappedValue: R, key: string, fromRaw: string -> Option<R>, toRaw: R -> string): (a: Accessor<R>)
    ensures a.writeKey == key && a.marksLocalChange && AbsentReads(a, wrappedValue)
    ensures forall s: Store :: key in s && !s[key].Text? ==> a.read(s) == wrappedValue
    ensures forall s: Store :: key in s && s[key].Text? && fromRaw(s[key].s).None? ==> a.read(s) == wrappedValue
    ensures (forall v :: fromRaw(toRaw(v)) == Some(v)) ==> RoundTrips(a)
  {
    Accessor(key,
      s => String(s, key).FlatMap(fromRaw).GetOr(wrappedValue),
      v => Some(EncodeString(toRaw(v))),
      true)
  }

  // Optional wrappers, `init(_:)`: `get(key)`, and nil writes remove the key.

  function OptionalBoolStorage(key: string): (a: Accessor<Option<bool>>)
    ensures a.writeKey == key && a.marksLocalChange && AbsentReads(a, None) && RoundTrips(a)
  {
    Accessor(key, s => Bool(s, key), v => EncodeOptional(v, EncodeBool), true)
  }

  function OptionalIntStorage(key: string): (a: Accessor<Option<int>>)
    ensures a.writeKey == key && a.marksLocalChange && AbsentReads(a, None) && RoundTrips(a)
  {
    Accessor(key, s => Int(s, key), v => EncodeOptional(v, EncodeInt), true)
  }

  function OptionalDoubleStorage(key: string): (a: Accessor<Option<Double>>)
    ensures a.writeKey == key && a.marksLocalChange && AbsentReads(a, None) && RoundTrips(a)
  {
    Accessor(key, s => DoubleValue(s, key), v => EncodeOptional(v, EncodeDouble), true)
  }

  function OptionalStringStorage(key: string): (a: Accessor<Option<string>>)
    ensures a.writeKey == key && a.marksLocalChange && AbsentReads(a, None) && RoundTrips(a)
  {
    Accessor(key, s => String(s, key), v => EncodeOptional(v, EncodeString), true)
  }

  /** Like `DateStorage`: writes, nil included, go through the untyped setter. */
  function OptionalDateStorage(key: string): (a: Accessor<Option<Date>>)
    ensures a.writeKey == key && !a.marksLocalChange && AbsentReads(a, None) && RoundTrips(a)
  {
    Accessor(key, s => DateValue(s, key), v => EncodeOptional(v, EncodeDate), false)
  }

  function OptionalDataStorage(key: string): (a: Accessor<Option<seq<bv8>>>)
    ensures a.writeKey == key && a.marksLocalChange && AbsentReads(a, None) && RoundTrips(a)
  {
    Accessor(key, s => Data(s, key), v => EncodeOptional(v, EncodeData), true)
  }

  /** `rawRepresentable(for:)` with String raw values; nil is also read for an unmatched string. */
  function OptionalRawStringStorage<R(!new)>(key: string, fromRaw: string -> Option<R>, toRaw: R -> string): (a: Accessor<Option<R>>)
    ensures a.writeKey == key && a.marksLocalChange && AbsentReads(a, None)
    ensures forall s: Store :: key in s && s[key].Text? && fromRaw(s[key].s).None? ==> a.read(s).None?
    ensures (forall v :: fromRaw(toRaw(v)) == Some(v)) ==> RoundTrips(a)
  {
    Accessor(key, s => RawString(s, key, fromRaw), v => EncodeOptional(v, (r: R) => EncodeString(toRaw(r))), true)
  }

  /** `rawRepresentable(for:)` with Int raw values; nil is also read for an unmatched integer. */
  function OptionalRawIntStorage<R(!new)>(key: string, fromRaw: int -> Option<R>, toRaw: R -> int): (a: Accessor<Option<R>>)
    ensures a.writeKey == key && a.marksLocalChange && AbsentReads(a, None)
    ensures forall s: Store :: key in s && fromRaw(IntegerOf(s[key])).None? ==> a.read(s).None?
    ensures (forall v :: fromRaw(toRaw(v)) == Some(v)) ==> RoundTrips(a)
  {
    Accessor(key, s => RawInt(s, key, fromRaw), v => EncodeOptional(v, (r: R) => EncodeInt(toRaw(r))), true)
  }

  /** `UserDefaultsStorageObject`: one bound value and its registered observer. */
  class UserDefaultsStorageObject<V(!new)> {
    const hub: UserDefaultsStorageSync
    const key: string
    const accessor: Accessor<V>
    const keyObserver: KeyObserver
    /** This object's own `objectWillChange` publisher. */
    const objectWillChange: Publisher

    /**
     * `init(key:syncGet:syncSet:)`: the observer is wired to this object's
     * publisher and submitted for registration under `key`, exactly once.
     */
    constructor (hub: UserDefaultsStorageSync, key: string, accessor: Accessor<V>)
      modifies hub`queue
      ensures this.hub == hub && this.key == key && this.accessor == accessor
      ensures fresh(keyObserver) && fresh(objectWillChange)
      ensures keyObserver.storageObjectWillChange == objectWillChange
      ensures keyObserver.enclosingObjectWillChange == null
      ensures hub.queue == old(hub.queue) + [AddObserverJob(keyObserver, key)]
    {
      this.hub := hub;
      this.key := key;
      this.accessor := accessor;
      var publisher := new Publisher();
      var observer := new KeyObserver();
      observer.storageObjectWillChange := publisher;
      keyObserver := observer;
      objectWillChange := publisher;
      new;
      hub.AddObserver(keyObserver, key);
    }

    /**
     * The `value` getter: `syncGet()`, a pure read of the store. It reads
     * nothing else of the hub (registry, status and queue are outside its
     * frame), and whatever value the store already holds as written through
     * the accessor is the one it returns.
     */
    function Value(): (r: V)
      reads hub`store
      ensures RoundTrips(accessor) ==>
                forall v: V :: hub.store == Put(hub.store, accessor.writeKey, accessor.encode(v)) ==> r == v
    {
      accessor.read(hub.store)
    }

    /**
     * The `value` setter: write through the accessor's setter (a typed one
     * marks a local change, the untyped one keeps the status), submit a
     * notification of this object's own key, then flush. Reading back gives
     * the value written whenever the accessor round-trips.
     */
    method SetValue(newValue: V, now: Date)
      modifies hub`store, hub`status, hub`queue, hub`synchronizations
      ensures hub.store == Put(old(hub.store), accessor.writeKey, accessor.encode(newValue))
      ensures hub.status == if accessor.marksLocalChange then Status(now, LocalChange, [accessor.writeKey]) else old(hub.status)
      ensures hub.queue == old(hub.queue) + [NotifyJob(key)]
      ensures hub.synchronizations == old(hub.synchronizations) + 1
      ensures RoundTrips(accessor) ==> Value() == newValue
    {
      if accessor.marksLocalChange {
        hub.Set(accessor.encode(newValue), accessor.writeKey, now);
      } else {
        hub.SetObject(accessor.encode(newValue), accessor.writeKey);
      }
      hub.NotifyObservers(key);
      hub.Synchronize();
    }

    /**
     * `deinit`: starts a main-actor task that will in turn submit
     * `removeObserver(keyObserver)` (see `MainQueue.DeinitRemoves`).
     */
    method Deinit()
      modifies hub`queue
      ensures hub.queue == old(hub.queue) + [DeinitJob(keyObserver)]
    {
      hub.queue := hub.queue + [DeinitJob(keyObserver)];
    }
  }
}
