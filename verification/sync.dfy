/**
 * `UserDefaultsStorageSync`: the process-wide hub. It owns the observer
 * registry and the published `status`, wraps the store's typed setters, and
 * submits every registry access to the main queue.
 */
module Sync {
  import opened Wrappers
  import opened UserDefaults
  import opened SyncStatus
  import opened Registry
  import opened MainQueue
  import opened KeyObservers

  class UserDefaultsStorageSync {
    var store: Store
    var observers: Registry<KeyObserver>
    var status: Status
    /** Closures submitted to the main queue and not yet run, oldest first. */
    var queue: seq<Job<KeyObserver>>
    /** Every `keyChanged()` call the hub has made, in call order. */
    var delivered: seq<KeyObserver>
    /** How many times `synchronize()` has been asked of the store. */
    var synchronizations: nat

    /** The part of the hub the main queue acts on. */
    function State(): Hub<KeyObserver>
      reads this
    {
      Hub(observers, status, queue, delivered)
    }

    /** `init()`: an empty registry and an initial status with no keys. */
    constructor (defaults: Store, now: Date)
      ensures store == defaults && observers == map[] && queue == [] && delivered == []
      ensures status == Status(now, Initial, []) && synchronizations == 0
    {
      store := defaults;
      observers := map[];
      status := Status(now, Initial, []);
      queue := [];
      delivered := [];
      synchronizations := 0;
    }

    /** `addObserver(_:key:)`: submits the append; the registry is not touched yet. */
    method AddObserver(observer: KeyObserver, key: string)
      modifies this`queue
      ensures queue == old(queue) + [AddObserverJob(observer, key)]
    {
      queue := queue + [AddObserverJob(observer, key)];
    }

    /** `removeObserver(_:)`: submits the removal from every key. */
    method RemoveObserver(observer: KeyObserver)
      modifies this`queue
      ensures queue == old(queue) + [RemoveObserverJob(observer)]
    {
      queue := queue + [RemoveObserverJob(observer)];
    }

    /** `notifyObservers(for:)`: submits the fan-out to the key's observers. */
    method NotifyObservers(key: string)
      modifies this`queue
      ensures queue == old(queue) + [NotifyJob(key)]
    {
      queue := queue + [NotifyJob(key)];
    }

    /**
     * `didChangeExternally(notification:)`: reads the reason code (default -1)
     * and the changed keys (default none) now, decodes the reason, and submits
     * the status update and the fan-out as one closure.
     */
    method DidChangeExternally(notification: Notification)
      modifies this`queue
      ensures queue == old(queue) + [ExternalChangeJob(DecodeReason(ReasonCode(notification)), ChangedKeys(notification))]
    {
      var reasonRaw := ReasonCode(notification);
      var keys := ChangedKeys(notification);
      var reason := DecodeReason(reasonRaw);
      queue := queue + [ExternalChangeJob(reason, keys)];
    }

    /** `synchronize()`: the store's flush, counted. */
    method Synchronize()
      modifies this`synchronizations
      ensures synchronizations == old(synchronizations) + 1
    {
      synchronizations := synchronizations + 1;
    }

    /**
     * `for observer in observers[key, default: []] { observer.keyChanged() }`:
     * one call per list entry, in list order; nothing for an absent key.
     */
    method CallObservers(key: string)
      modifies this`delivered
      ensures delivered == old(delivered) + ObserversFor(observers, key)
    {
      var list := ObserversFor(observers, key);
      for i := 0 to |list|
        invariant delivered == old(delivered) + list[..i]
      {
        delivered := delivered + [list[i]];  // list[i].keyChanged()
      }
    }

    /** `for key in keys { ... }`: the observers of each changed key in turn. */
    method CallObserversOfEach(keys: seq<string>)
      modifies this`delivered
      ensures delivered == old(delivered) + Fanout(observers, keys)
    {
      for i := 0 to |keys|
        invariant delivered == old(delivered) + Fanout(observers, keys[..i])
      {
        CallObservers(keys[i]);
        FanoutSnoc(observers, keys[..i], keys[i]);
        assert keys[..i + 1] == keys[..i] + [keys[i]];
      }
      assert keys[..|keys|] == keys;
    }

    /**
     * The main queue runs its oldest closure, exactly as `Step` describes. An
     * external change calls the observers of each changed key in turn; the
     * store is not touched.
     */
    method RunNext(now: Date)
      requires queue != []
      modifies this`observers, this`status, this`queue, this`delivered
      ensures State() == Step(old(State()), now)
    {
      var job := queue[0];
      queue := queue[1..];
      match job {
        case AddObserverJob(o, k) =>
          observers := observers[k := ObserversFor(observers, k) + [o]];
        case RemoveObserverJob(o) =>
          observers := Removed(observers, o);
        case NotifyJob(k) =>
          CallObservers(k);
        case ExternalChangeJob(reason, keys) =>
          status := Status(now, ExternalChange(reason), keys);
          CallObserversOfEach(keys);
        case DeinitJob(o) =>
          queue := queue + [RemoveObserverJob(o)];
      }
    }

    /**
     * Every typed `set(_:for:)` once its value is encoded: a present value is
     * written, nil removes the key; then the status becomes a local change of
     * exactly this key. Observers are not notified here.
     */
    method Set(value: Option<StoredValue>, key: string, now: Date)
      modifies this`store, this`status
      ensures store == Put(old(store), key, value)
      ensures status == Status(now, LocalChange, [key])
    {
      store := Put(store, key, value);
      status := Status(now, LocalChange, [key]);
    }

    /** `set(_: Int64?, for:)`: writes the number, or removes the key explicitly. */
    method SetInt64(value: Option<int>, key: string, now: Date)
      modifies this`store, this`status
      ensures store == Put(old(store), key, EncodeOptional(value, EncodeInt))
      ensures status == Status(now, LocalChange, [key])
    {
      if value.Some? {
        store := store[key := EncodeInt(value.value)];
      } else {
        store := store - {key};
      }
      status := Status(now, LocalChange, [key]);
    }

    /** The untyped `set(_ object:for:)`: writes (or removes) and leaves the status alone. */
    method SetObject(value: Option<StoredValue>, key: string)
      modifies this`store
      ensures store == Put(old(store), key, value)
    {
      store := Put(store, key, value);
    }

    /** `remove(for:)`: removes the key and leaves the status alone. */
    method Remove(key: string)
      modifies this`store
      ensures store == Put(old(store), key, None)
    {
      store := store - {key};
    }
  }
}
