# UserDefaultsStorage — a verified model of the observer hub

UserDefaultsStorage is a Swift property wrapper, `@UserDefaultsStorage`, that
binds a UI value to a key of the user-defaults store and invalidates the UI
whenever that key changes, whether the change comes from this process or from
outside it. This project models its core in Dafny and proves properties of the
model:

* **The hub, `UserDefaultsStorageSync`** (`sync.dfy`). It holds the observer
  registry, the published `status` and the store. Its typed setters write the
  store and mark a local change. `addObserver`, `removeObserver`,
  `notifyObservers(for:)` and `didChangeExternally` do not act at once: each
  submits a closure to the main queue.
* **The main queue** (`main_queue.dfy`). It is an explicit FIFO of pending jobs.
  Each job is one submitted closure and runs as one atomic step, in submission
  order. `Step` and `Steps` give the meaning of running jobs. The lemmas prove
  the ordering guarantees the main queue gives the registry.
* **The registry** (`registry.dfy`). This is `observers: [String: [KeyObserver]]`
  as a value, with the append, the identity filter (`!==`) applied to every key,
  and the fan-out over a list of keys.
* **The store and its typed getters** (`user_defaults.dfy`). The store is a map
  from key to a tagged value. The getters follow the "absent → nil" rules.
* **Change reasons and status** (`status.dfy`). This covers
  `ChangeReason.init?(rawValue:)`, `Status`, and reading the reason code and the
  changed keys out of a notification's `userInfo`.
* **`KeyObserver`** (`key_observer.dfy`). It signals each publisher it still
  references weakly.
* **The per-binding object** (`storage.dfy`). `UserDefaultsStorageObject`
  registers on construction. Its `value` setter writes, then notifies its own
  key, then synchronises. Its teardown schedules deregistration. The same file
  has the `syncGet`/`syncSet` pairs that the typed initialisers build, with
  their default fallbacks.
* `scenarios.dfy` holds four client walk-throughs that use only the contracts
  above: a local write, an external change whose reason is unknown, a
  binding torn down before a notification, and a `Date?` binding cleared
  without changing the status.

Observers are Dafny object references, so Dafny's `==` on them is Swift's
identity comparison. The hub keeps a log, `delivered`, with one entry for each
`keyChanged()` call, in call order. What one call does to the publishers is
`KeyObserver.KeyChanged`.

Three behaviours of the code are worth stating up front, and the model follows all three:

* `addObserver` appends without checking for an existing entry, so an observer
  added twice for a key is listed twice (`Registry.AppendedTwiceListsTwice`).
* The hub's typed setters only write the store and set `status`. The
  notification comes from the binding object's `value` setter
  (`Storage.UserDefaultsStorageObject.SetValue`).
* The hub has no typed setter for `Date`. A `Date` or `Date?` binding's
  `syncSet` therefore resolves to the untyped `set(_ object:for:)`, which
  writes the store and leaves `status` as it was. The other bindings mark a
  local change (`Storage.Accessor.marksLocalChange`).

## Model

| member | source | states |
|---|---|---|
| `UserDefaults.Put` | Sources/UserDefaultsStorage/UserDefaultsStorageSync.swift:113-115 | writing a value stores it under the key; writing nil removes the key; no other key changes |
| `UserDefaults.Object` | Sources/UserDefaultsStorage/UserDefaultsStorageSync.swift:109-111 | nil exactly when the key is absent, otherwise the stored object |
| `UserDefaults.String` | Sources/UserDefaultsStorage/UserDefaultsStorageSync.swift:121-123 | a string exactly when a string is stored under the key |
| `UserDefaults.Array` | Sources/UserDefaultsStorage/UserDefaultsStorageSync.swift:129-131 | an array exactly when an array is stored under the key |
| `UserDefaults.Dictionary` | Sources/UserDefaultsStorage/UserDefaultsStorageSync.swift:133-135 | a dictionary exactly when a dictionary is stored under the key |
| `UserDefaults.DateValue` | Sources/UserDefaultsStorage/UserDefaultsStorageSync.swift:137-140 | nil when the key is absent or the stored object is not a date; otherwise that date |
| `UserDefaults.Data` | Sources/UserDefaultsStorage/UserDefaultsStorageSync.swift:142-144 | data exactly when data is stored under the key |
| `UserDefaults.Int` | Sources/UserDefaultsStorage/UserDefaultsStorageSync.swift:146-149 | nil exactly when the key is absent; a stored integer is returned as is |
| `UserDefaults.Int64` | Sources/UserDefaultsStorage/UserDefaultsStorageSync.swift:151-154 | nil exactly when the stored object is not a number (absent keys included); a stored integer is returned as is |
| `UserDefaults.DoubleValue` | Sources/UserDefaultsStorage/UserDefaultsStorageSync.swift:156-159 | nil exactly when the key is absent; a stored double is returned as is |
| `UserDefaults.Bool` | Sources/UserDefaultsStorage/UserDefaultsStorageSync.swift:161-164 | nil exactly when the key is absent; a stored boolean is returned as is |
| `UserDefaults.RawString` | Sources/UserDefaultsStorage/UserDefaultsStorageSync.swift:166-169 | nil exactly when no string is stored or the stored string matches no case |
| `UserDefaults.RawInt` | Sources/UserDefaultsStorage/UserDefaultsStorageSync.swift:171-175 | nil when the key is absent; otherwise the case (if any) that the stored integer names |
| `SyncStatus.DecodeReason` | Sources/UserDefaultsStorage/UserDefaultsStorageSync.swift:246-259 | only the four platform codes decode to a reason, every other code to nil, and a decoded reason has the code it came from |
| `SyncStatus.DecodeCode` | Sources/UserDefaultsStorage/UserDefaultsStorageSync.swift:240-259 | each of the four reasons decodes back from its code, so the four codes map to four distinct cases |
| `SyncStatus.ReasonCode` | Sources/UserDefaultsStorage/UserDefaultsStorageSync.swift:50 | an integer under the reason key is the code; without one the code is -1 |
| `SyncStatus.ChangedKeys` | Sources/UserDefaultsStorage/UserDefaultsStorageSync.swift:51 | a string list under the changed-keys key is the key list; without one there are no keys |
| `SyncStatus.MissingReasonIsUnknown` | Sources/UserDefaultsStorage/UserDefaultsStorageSync.swift:50-52 | a notification without an integer reason gets the unknown (nil) reason |
| `Registry.Appended` | Sources/UserDefaultsStorage/UserDefaultsStorageSync.swift:81 | the key's list (empty if the key was absent) gains the observer at its end; every other key keeps its list |
| `Registry.AppendedTwiceListsTwice` | Sources/UserDefaultsStorage/UserDefaultsStorageSync.swift:77-83 | no deduplication: adding the same observer twice lists it twice more |
| `Registry.Without` | Sources/UserDefaultsStorage/UserDefaultsStorageSync.swift:89 | the filtered list lacks the observer, keeps every other element with its multiplicity, and is no longer than the input |
| `Registry.WithoutKeepsOrder` | Sources/UserDefaultsStorage/UserDefaultsStorageSync.swift:89 | the filter keeps the survivors in their original relative order |
| `Registry.WithoutAbsent` | Sources/UserDefaultsStorage/UserDefaultsStorageSync.swift:89 | filtering out an observer that is not in the list returns the list unchanged |
| `Registry.Removed` | Sources/UserDefaultsStorage/UserDefaultsStorageSync.swift:89 | every key is kept, including keys whose lists become empty, and each key's list is filtered |
| `Registry.RemovedUnderNoKey` | Sources/UserDefaultsStorage/UserDefaultsStorageSync.swift:85-91 | removal is total: afterwards the observer is listed under no key |
| `Registry.RemovedKeepsOthers` | Sources/UserDefaultsStorage/UserDefaultsStorageSync.swift:89 | under every key, each other observer keeps its multiplicity, and the survivors keep their relative order |
| `Registry.RemovedUnregisteredIsNoOp` | Sources/UserDefaultsStorage/UserDefaultsStorageSync.swift:85-91 | removing an observer that was never registered leaves the registry unchanged |
| `Registry.RemovedIdempotent` | Sources/UserDefaultsStorage/UserDefaultsStorageSync.swift:85-91 | removing twice has the same effect as removing once |
| `Registry.Fanout` | Sources/UserDefaultsStorage/UserDefaultsStorageSync.swift:59-63 | an external change reaches exactly the observers listed under one of the changed keys |
| `Registry.FanoutSnoc` | Sources/UserDefaultsStorage/UserDefaultsStorageSync.swift:59-63 | dispatch goes key after key: one more key appends that key's list, in order |
| `MainQueue.RunEffects` | Sources/UserDefaultsStorage/UserDefaultsStorageSync.swift:54-90 | what one queued closure does: an add appends to the key's list; a removal filters every list, so the observer is then listed nowhere; only these two touch the registry. Only an external change sets the status (the decoded reason, nil included, and the keys). A notification calls the key's list in order, an external change the lists of its keys in key order, and no other job calls anyone. Only the deinit task submits work: the removal, behind every pending job |
| `MainQueue.Step` | Sources/UserDefaultsStorage/UserDefaultsStorageSync.swift:54-90 | the oldest job runs; the jobs behind it stay at the front of the queue in their order; the call log only grows |
| `MainQueue.DispatchJobs` | Sources/UserDefaultsStorage/UserDefaultsStorageSync.swift:56-74 | a notify job calls each entry of the key's list once, in order, and calls nothing for an absent key. An external-change job overwrites the status with the decoded reason (nil included) and exactly the given keys, then calls the lists of those keys in key order. Neither job changes the registry |
| `MainQueue.Steps` | Sources/UserDefaultsStorage/UserDefaultsStorageSync.swift:54-90 | running n jobs runs exactly the n oldest jobs, FIFO; later jobs stay queued in order |
| `MainQueue.StepsAdd` | Sources/UserDefaultsStorage/UserDefaultsStorageSync.swift:54-90 | running a + b jobs is running a jobs, then b more: the queue's effects compose |
| `MainQueue.StaysUnregistered` | Sources/UserDefaultsStorage/UserDefaultsStorageSync.swift:67-91 | an observer listed nowhere is never called, and stays unlisted, while no job re-adds it |
| `MainQueue.NotifyAfterRemoveSkips` | Sources/UserDefaultsStorage/UserDefaultsStorageSync.swift:67-91 | no job submitted after `removeObserver(o)` calls `o` (a notification of any key included) until a new `addObserver(o, _)` runs |
| `MainQueue.RemoveAnywhereSkips` | Sources/UserDefaultsStorage/UserDefaultsStorageSync.swift:67-91 | wherever `removeObserver(o)` sits in the queue, the jobs run after it, up to a new `addObserver(o, _)`, never call `o` |
| `MainQueue.StaysRegistered` | Sources/UserDefaultsStorage/UserDefaultsStorageSync.swift:67-91 | an observer listed under a key stays listed there while no job removes it |
| `MainQueue.AddAnywhereListed` | Sources/UserDefaultsStorage/UserDefaultsStorageSync.swift:67-91 | wherever `addObserver(o, k)` sits in the queue, `o` is listed under k after the jobs up to position q have run, unless one of the jobs after the add removes it |
| `MainQueue.AddAnywhereInvokes` | Sources/UserDefaultsStorage/UserDefaultsStorageSync.swift:49-83 | for an `addObserver(o, k)` at any position p and a notification or external change of k at a later position q, with no removal of `o` between them, the job at q calls `o` |
| `MainQueue.NotifyAfterAddInvokes` | Sources/UserDefaultsStorage/UserDefaultsStorageSync.swift:49-83 | a notification or external change of key k calls `o` when it was submitted after `addObserver(o, k)` with no removal of `o` in between |
| `MainQueue.DeinitRemoves` | Sources/UserDefaultsStorage/UserDefaultsStorage.swift:83-87 | a teardown's task queues the removal behind all pending jobs; once that removal has run, the observer is listed under no key |
| `MainQueue.DeinitAnywhereRemoves` | Sources/UserDefaultsStorage/UserDefaultsStorage.swift:83-87 | for a deinit job at any position, once it has run its removal sits at the back behind every job queued after it, and after those jobs have run the observer is listed under no key |
| `KeyObservers.KeyObserver.KeyChanged` | Sources/UserDefaultsStorage/UserDefaultsStorage.swift:51-54 | each publisher still referenced gets one signal per reference to it; nil references are skipped |
| `Sync.UserDefaultsStorageSync.constructor` | Sources/UserDefaultsStorage/UserDefaultsStorageSync.swift:24-26 | the registry is empty, nothing is queued, and the status is `initial` with no keys |
| `Sync.UserDefaultsStorageSync.AddObserver` | Sources/UserDefaultsStorage/UserDefaultsStorageSync.swift:77-83 | only submits the append to the main queue; nothing else changes |
| `Sync.UserDefaultsStorageSync.RemoveObserver` | Sources/UserDefaultsStorage/UserDefaultsStorageSync.swift:85-91 | only submits the removal to the main queue |
| `Sync.UserDefaultsStorageSync.NotifyObservers` | Sources/UserDefaultsStorage/UserDefaultsStorageSync.swift:67-75 | only submits the fan-out for this key to the main queue |
| `Sync.UserDefaultsStorageSync.DidChangeExternally` | Sources/UserDefaultsStorage/UserDefaultsStorageSync.swift:49-65 | reads the reason (default -1) and the keys (default none), decodes the reason at once, and submits one job for the status update and the fan-out |
| `Sync.UserDefaultsStorageSync.Synchronize` | Sources/UserDefaultsStorage/UserDefaultsStorageSync.swift:102-104 | counts one more store flush and changes nothing else |
| `Sync.UserDefaultsStorageSync.RunNext` | Sources/UserDefaultsStorage/UserDefaultsStorageSync.swift:54-90 | runs the oldest closure exactly as `MainQueue.Step` says. The fan-out loops call `keyChanged` once per list entry, in list order and key order; an absent key gets no calls |
| `Sync.UserDefaultsStorageSync.CallObservers` | Sources/UserDefaultsStorage/UserDefaultsStorageSync.swift:71-73 | the loop over `observers[key, default: []]` calls `keyChanged` once per entry, in list order, and calls nothing for an absent key |
| `Sync.UserDefaultsStorageSync.CallObserversOfEach` | Sources/UserDefaultsStorage/UserDefaultsStorageSync.swift:59-63 | the nested loop calls the observers of each changed key in turn, which is exactly `Registry.Fanout` |
| `Sync.UserDefaultsStorageSync.Set` | Sources/UserDefaultsStorage/UserDefaultsStorageSync.swift:179-236 | a typed setter writes the value (nil removes it), then sets the status to a local change of exactly this key; it notifies no observer |
| `Sync.UserDefaultsStorageSync.SetInt64` | Sources/UserDefaultsStorage/UserDefaultsStorageSync.swift:209-216 | writes the number or removes the key explicitly, then sets the status to a local change of exactly this key |
| `Sync.UserDefaultsStorageSync.SetObject` | Sources/UserDefaultsStorage/UserDefaultsStorageSync.swift:113-115 | writes (nil removes) and leaves the status unchanged |
| `Sync.UserDefaultsStorageSync.Remove` | Sources/UserDefaultsStorage/UserDefaultsStorageSync.swift:117-119 | removes the key and leaves the status unchanged |
| `Storage.BoolStorage` | Sources/UserDefaultsStorage/UserDefaultsStorage.swift:93-100 | reads the default when the key is absent, and reads back any written value |
| `Storage.IntStorage` | Sources/UserDefaultsStorage/UserDefaultsStorage.swift:102-109 | reads the default when the key is absent, and reads back any written value |
| `Storage.DoubleStorage` | Sources/UserDefaultsStorage/UserDefaultsStorage.swift:111-118 | reads the default when the key is absent, and reads back any written value |
| `Storage.StringStorage` | Sources/UserDefaultsStorage/UserDefaultsStorage.swift:120-127 | reads the default when the key is absent or holds no string, and reads back any written value |
| `Storage.DateStorage` | Sources/UserDefaultsStorage/UserDefaultsStorage.swift:138-145 | reads the default when the key is absent or holds no date, and reads back any written value; writes go through the untyped setter, so they do not mark a local change |
| `Storage.DataStorage` | Sources/UserDefaultsStorage/UserDefaultsStorage.swift:147-154 | reads the default when the key is absent or holds no data, and reads back any written value |
| `Storage.RawIntStorage` | Sources/UserDefaultsStorage/UserDefaultsStorage.swift:156-163 | reads the default when the key is absent or the stored integer matches no case; reads back a written case when `init(rawValue:)` inverts `rawValue` |
| `Storage.RawStringStorage` | Sources/UserDefaultsStorage/UserDefaultsStorage.swift:165-172 | reads the default when no string is stored or the string matches no case; reads back a written case when `init(rawValue:)` inverts `rawValue` |
| `Storage.OptionalBoolStorage` | Sources/UserDefaultsStorage/UserDefaultsStorage.swift:174-181 | reads nil when the key is absent; writing a value or nil and reading gives it back |
| `Storage.OptionalIntStorage` | Sources/UserDefaultsStorage/UserDefaultsStorage.swift:183-190 | reads nil when the key is absent; writing a value or nil and reading gives it back |
| `Storage.OptionalDoubleStorage` | Sources/UserDefaultsStorage/UserDefaultsStorage.swift:192-199 | reads nil when the key is absent; writing a value or nil and reading gives it back |
| `Storage.OptionalStringStorage` | Sources/UserDefaultsStorage/UserDefaultsStorage.swift:201-208 | reads nil when the key is absent; writing a value or nil and reading gives it back |
| `Storage.OptionalDateStorage` | Sources/UserDefaultsStorage/UserDefaultsStorage.swift:219-226 | reads nil when the key is absent; writing a value or nil and reading gives it back; writes go through the untyped setter, so they do not mark a local change |
| `Storage.OptionalDataStorage` | Sources/UserDefaultsStorage/UserDefaultsStorage.swift:228-235 | reads nil when the key is absent; writing a value or nil and reading gives it back |
| `Storage.OptionalRawStringStorage` | Sources/UserDefaultsStorage/UserDefaultsStorage.swift:237-244 | reads nil when the key is absent or the stored string matches no case; round-trips when `init(rawValue:)` inverts `rawValue` |
| `Storage.OptionalRawIntStorage` | Sources/UserDefaultsStorage/UserDefaultsStorage.swift:246-253 | reads nil when the key is absent or the stored integer matches no case; round-trips when `init(rawValue:)` inverts `rawValue` |
| `Storage.UserDefaultsStorageObject.constructor` | Sources/UserDefaultsStorage/UserDefaultsStorage.swift:74-81 | wires a fresh observer to the object's own publisher and submits its registration under the key exactly once |
| `Storage.UserDefaultsStorageObject.Value` | Sources/UserDefaultsStorage/UserDefaultsStorage.swift:65-66 | `syncGet()` reads the store only (registry, status and queue are outside its frame, so running jobs never changes it); when the store already holds what writing v through the accessor stores, and the accessor round-trips, it returns v |
| `Storage.UserDefaultsStorageObject.SetValue` | Sources/UserDefaultsStorage/UserDefaultsStorage.swift:65-72 | writes through the accessor's setter: a typed setter sets the status to a local change of the key, while the untyped one used by `Date` and `Date?` bindings leaves the status as it was. It then submits a notification of its own key only, and flushes once. Reading back gives the value written when the accessor round-trips |
| `Storage.UserDefaultsStorageObject.Deinit` | Sources/UserDefaultsStorage/UserDefaultsStorage.swift:83-87 | starts the main-actor task that will submit the removal of its observer, and does nothing else |

## Left out

- Real concurrency is not modelled. `DispatchQueue.main.async`, `Task { @MainActor }` and actor isolation are all one FIFO of atomic jobs. A deinit task is assumed to run on the same queue as the dispatched closures. `RunNext` takes the clock reading as a parameter (`now`), and `Steps` uses one reading for every job it runs.
- The store's internals are not modelled: persistence, the foreground `synchronize()` hook (UserDefaultsStorageSync.swift:40-46), and the flush itself. `Synchronize` only counts calls.
- UserDefaults.IntegerOf: `integer(forKey:)` gives 0 for a stored double or string in the model. The platform truncates the double or parses the string.
- UserDefaults.DoubleOf: `double(forKey:)` gives a zero bit pattern for a stored non-double in the model. The platform converts integers and parses strings.
- UserDefaults.BoolOf: `bool(forKey:)` gives false for a stored string or a stored double in the model. The platform accepts strings such as "YES" and "true", and gives true for a nonzero double.
- UserDefaults.String: `string(forKey:)` gives nil for a stored number in the model. The platform returns the number's text.
- Integer widths are not modelled. `Int` and `Int64` are unbounded integers, so the 64-bit limit and the truncation done by `int64Value` are absent.
- UserDefaults.Int64: a stored double reads as `Some(0)` in the model, because the number goes through `IntegerOf`. The platform's `int64Value` truncates the double toward zero.
- `Double` values are opaque bit patterns, and `Date` values are opaque ticks. `Status.description` and its date formatter (UserDefaultsStorageSync.swift:263-299) are left out, because they depend on locale and clock.
- `URL` values are left out: `url(for:)`, `set(_: URL?, for:)` and the two URL wrappers (UserDefaultsStorage.swift:129-136, :210-217). They depend on the platform's URL parser.
- The SwiftUI and Combine glue is left out: `DynamicProperty`, `wrappedValue`/`projectedValue`, `Binding`, `@Published status`, and the `_enclosingInstance` subscript that sets `enclosingObjectWillChange`. As a result that weak reference is never set by the model, and no publisher is ever deallocated, so it never becomes nil.
- The hub logs each `keyChanged()` call in `delivered` instead of running `KeyObserver.KeyChanged` on the observer. What one call does is proved separately, in `KeyChanged`.
- `init(keyName:syncGet:syncSet:)` with arbitrary closures is not modelled. Dafny has no side-effecting closures, so an `Accessor` is a pure read function, an encoder, and a flag saying which hub setter the encoded value goes to: a typed one, which marks a local change, or the untyped `set(_ object:for:)`, which the `Date` and `Date?` initialisers reach. Every typed initialiser builds its closures this way.
- The development-build `assertionFailure` for an unknown reason code is not modelled; the model decodes such a code to nil, as release builds do.
- Keys compare code point by code point. Swift compares `String` dictionary keys by Unicode canonical equivalence, so two canonically equivalent spellings of a key (precomposed and decomposed "café") are one registry or store key in the library and two in the model.
- The external-change registration is commented out in the source (UserDefaultsStorageSync.swift:28-38). `DidChangeExternally` is modelled as an entry point, and its caller is not.
