/**
 * Clients of the hub and of the binding object that walk through the
 * library's intended behaviour using only the contracts above.
 */
module Scenarios {
  import opened Wrappers
  import opened UserDefaults
  import opened SyncStatus
  import opened MainQueue
  import opened Sync
  import opened Storage
  import Registry
  import KeyObservers

  /** A binding on "theme" written locally: its observer is called once. */
  method LocalWriteNotifiesOnce(defaults: Store, t0: Date, t1: Date, t2: Date) {
    var hub := new UserDefaultsStorageSync(defaults, t0);
    var theme := new UserDefaultsStorageObject(hub, "theme", StringStorage("light", "theme"));
    assert hub.queue == [AddObserverJob(theme.keyObserver, "theme")];
    hub.RunNext(t1);
    assert hub.observers == Registry.Appended(map[], "theme", theme.keyObserver);
    theme.SetValue("dark", t1);
    assert theme.Value() == "dark";
    assert hub.status == Status(t1, LocalChange, ["theme"]);
    hub.RunNext(t2);
    assert theme.Value() == "dark";
    assert hub.delivered == [theme.keyObserver];
    assert hub.queue == [];
  }

  /** An external change with an unknown reason code still notifies. */
  method UnknownReasonStillNotifies(defaults: Store, t0: Date, t1: Date) {
    var hub := new UserDefaultsStorageSync(defaults, t0);
    var x := new UserDefaultsStorageObject(hub, "x", OptionalIntStorage("x"));
    var info := map[ChangeReasonKey := IntInfo(9999), ChangedKeysKey := KeysInfo(["x"])];
    hub.DidChangeExternally(Notification(Some(info)));
    assert hub.queue == [AddObserverJob(x.keyObserver, "x"), ExternalChangeJob(None, ["x"])];
    hub.RunNext(t1);
    assert hub.observers == Registry.Appended(map[], "x", x.keyObserver);
    assert Registry.ObserversFor(map[], "x") + [x.keyObserver] == [x.keyObserver];
    assert hub.observers == map["x" := [x.keyObserver]];
    assert hub.queue == [ExternalChangeJob(None, ["x"])];
    hub.RunNext(t1);
    assert Registry.Fanout(map["x" := [x.keyObserver]], ["x"]) == [x.keyObserver];
    assert hub.status == Status(t1, ExternalChange(None), ["x"]);
    assert hub.delivered == [x.keyObserver];
  }

  /** A binding torn down before a notification of its key is not called by it. */
  method TornDownBindingIsNotCalled(defaults: Store, t0: Date, t1: Date) {
    var hub := new UserDefaultsStorageSync(defaults, t0);
    var count := new UserDefaultsStorageObject(hub, "count", IntStorage(0, "count"));
    var o := count.keyObserver;
    assert hub.queue == [AddObserverJob(o, "count")];
    hub.RunNext(t1);
    assert hub.observers == Registry.Appended(map[], "count", o);
    assert Registry.ObserversFor(map[], "count") + [o] == [o];
    assert hub.observers == map["count" := [o]];
    count.Deinit();
    assert hub.queue == [DeinitJob(o)];
    DeinitThenNotify(hub, o, t1);
  }

  /** The deinit job of the only observer of "count", then a notification of "count". */
  method DeinitThenNotify(hub: UserDefaultsStorageSync, o: KeyObservers.KeyObserver, now: Date)
    requires hub.observers == map["count" := [o]]
    requires hub.queue == [DeinitJob(o)] && hub.delivered == []
    modifies hub
  {
    hub.RunNext(now);
    assert hub.queue == [RemoveObserverJob(o)] && hub.delivered == [];
    hub.RunNext(now);
    assert Registry.Without([o], o) == [];
    assert hub.observers == map["count" := []] && hub.delivered == [];
    hub.NotifyObservers("count");
    assert hub.queue == [NotifyJob("count")];
    hub.RunNext(now);
    assert Registry.ObserversFor(hub.observers, "count") == [];
    assert hub.delivered == [];
  }

  /**
   * A `Date?` binding cleared: the key is removed and its observer will be
   * notified, but the status still says the hub was just created.
   */
  method DateClearKeepsStatus(defaults: Store, t0: Date, t1: Date) {
    var hub := new UserDefaultsStorageSync(defaults, t0);
    var due := new UserDefaultsStorageObject(hub, "due", OptionalDateStorage("due"));
    due.SetValue(None, t1);
    assert "due" !in hub.store && due.Value() == None;
    assert hub.status == Status(t0, Initial, []);
    assert hub.queue == [AddObserverJob(due.keyObserver, "due"), NotifyJob("due")];
  }
}
