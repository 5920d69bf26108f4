# Transaction-aware change log and value cache

This project models the per-thread bookkeeping that lets a mail server record
uncommitted mutations of cached mailbox state (`TransactionAware`). One object
is one named cached field. For the calling thread it keeps two independent
slots, selected by the tracker's "in transaction" flag:

- a **change buffer** (`Changes`): an ordered, append-only list of `Change`
  records. It is created on first use, and creating it registers the object with
  the transaction cache tracker. `resetChanges` drops it and logs a warning when
  it still held changes.
- an optional **value cache** (`Getter`, eager `GreedyGetter` strategy): the
  loaded value. The loader runs, and registers the object, only when the slot is
  empty. `clearLocalCache` drops the slot.

The model has two layers:

- `TransactionSpec` describes one object's state in one thread as a value
  (`View`). It gives a function for each operation, plus `Run` for a sequence of
  calls. `TransactionLaws` proves the documented properties on these functions:
  append order, get-or-create, independent flag slots, what reset does, load at
  most once, and the tracker bookkeeping.
- `ChangeLog`, `Tracking` and `Transactional` mirror the Java classes.
  `Changes`, `TransactionCacheTracker`, `Getter` and `TransactionAware` are
  classes whose methods update their fields in place. Every `TransactionAware`
  method is proved to move its abstract state `Model()` exactly as the matching
  `TransactionSpec` function says. So the laws apply to the class.
- `Scenarios` verifies the usage examples against the class contracts alone.

Environment inputs are parameters:

- The in-transaction flag is a field of the tracker. The transaction boundary
  sets it with `SetInTransaction`.
- The value returned by the abstract `loadObject()` is passed to `Data` and
  `GetObject` as `loaded`: the value the loader would return at that moment. It
  is used only when the slot is empty. A ghost counter `loads` records each time
  the loader actually runs.
- The tracker's registrations are a ghost log of `addToTracker` calls. Discard
  warnings are a ghost log of `(count, name)` pairs.

Two properties one might expect do not hold of the code, and the model
follows the code:

- "An object is registered with the tracker exactly while it has a live change
  buffer" does not hold, for three reasons. The code never removes an object
  from the tracker: `resetChanges` drops the buffer but not the registration.
  `data()` also registers an object that has no buffer. And `resetChanges` on
  an untouched slot first creates the buffer, which registers the object, and
  then drops it (`ResetUntouchedRegisters`). The model proves the one-way
  property the code keeps: every live buffer and every load is preceded by its
  own registration (`Tracked`, `RunTracked`).
- "Reset is idempotent" holds for the buffers and the warnings, but not for the
  tracker: a second reset registers the object once more (`ResetChangesTwice`).

## Model

| member | source | states |
|---|---|---|
| `ChangeLog.Changes.constructor` | store/src/java/com/zimbra/cs/mailbox/TransactionAware.java:104-111 | a new buffer is empty and carries the given object name |
| `ChangeLog.Changes.Reset` | store/src/java/com/zimbra/cs/mailbox/TransactionAware.java:113-118 | reset empties the buffer; the name (a constant) is untouched |
| `ChangeLog.Changes.AddChange` | store/src/java/com/zimbra/cs/mailbox/TransactionAware.java:120-122 | the change is appended after all earlier ones |
| `ChangeLog.Changes.HasChanges` | store/src/java/com/zimbra/cs/mailbox/TransactionAware.java:124-126 | true iff the list is non-empty, iff `Size()` is non-zero |
| `ChangeLog.Changes.Size` | store/src/java/com/zimbra/cs/mailbox/TransactionAware.java:128-138 | the size is the length of the list `getChanges` returns |
| `Tracking.TransactionCacheTracker.AddToTracker` | store/src/java/com/zimbra/cs/mailbox/TransactionAware.java:77 | each registration is recorded, in call order |
| `Tracking.TransactionCacheTracker.SetInTransaction` | store/src/java/com/zimbra/cs/mailbox/TransactionAware.java:50-52 | the flag `isInTransaction` reports is the one the boundary last set |
| `Transactional.Getter.constructor` | store/src/java/com/zimbra/cs/mailbox/TransactionAware.java:174-177 | a new getter has an empty value cache and has loaded nothing |
| `Transactional.Getter.LoadCacheValue` | store/src/java/com/zimbra/cs/mailbox/TransactionAware.java:216-221 | the eager entry is built from one loader call, made at entry creation, under the getter's name |
| `Transactional.Getter.GetObject` | store/src/java/com/zimbra/cs/mailbox/TransactionAware.java:185-198 | an empty slot is filled by exactly one load plus one registration of the object and returns the loaded value; a filled slot returns its cached value with no load and no registration |
| `Transactional.Getter.ClearCache` | store/src/java/com/zimbra/cs/mailbox/TransactionAware.java:200-202 | only the given flag's value slot is removed |
| `Transactional.TransactionAware.constructor` | store/src/java/com/zimbra/cs/mailbox/TransactionAware.java:39-44 | a new object has its name, tracker and getter, and no change slot; with no getter or an unused one, its `Model()` is `TransactionSpec.Initial` |
| `Transactional.TransactionAware.Data` | store/src/java/com/zimbra/cs/mailbox/TransactionAware.java:54-56 | with no getter the result is `None` and nothing changes; otherwise the getter's result and state change, as `TransactionSpec.Data`/`LoadData` define; the tracker log gains exactly this object when the slot was empty, and nothing otherwise |
| `Transactional.TransactionAware.ClearLocalCache` | store/src/java/com/zimbra/cs/mailbox/TransactionAware.java:58-62 | drops the current flag's value slot if there is a getter; change buffers are untouched |
| `Transactional.TransactionAware.HasChanges` | store/src/java/com/zimbra/cs/mailbox/TransactionAware.java:64-66 | the result says whether the current flag's buffer holds changes; the slot is created if absent; the tracker log gains exactly this object when the slot was absent, and nothing otherwise |
| `Transactional.TransactionAware.AddChange` | store/src/java/com/zimbra/cs/mailbox/TransactionAware.java:68-70 | the change is appended to the current flag's buffer only; any new buffer is fresh; the tracker log gains exactly this object when the slot was absent, and nothing otherwise |
| `Transactional.TransactionAware.GetChanges` | store/src/java/com/zimbra/cs/mailbox/TransactionAware.java:72-82 | get-or-create: a present slot's buffer object is returned unchanged without registering; an absent slot gets a fresh empty buffer named after the object; the tracker log gains exactly this object then, and nothing when the slot was present |
| `Transactional.TransactionAware.GetChangeList` | store/src/java/com/zimbra/cs/mailbox/TransactionAware.java:84-86 | the current flag's changes, oldest first; the slot is created if absent; the tracker log gains exactly this object when the slot was absent, and nothing otherwise |
| `Transactional.TransactionAware.ResetChanges` | store/src/java/com/zimbra/cs/mailbox/TransactionAware.java:88-94 | the buffer is fetched (possibly created), a warning is logged iff it held changes, then the slot is removed; the tracker log gains exactly this object when the slot was absent, and nothing otherwise |
| `Transactional.TransactionAware.AppendChange` | store/src/java/com/zimbra/cs/mailbox/TransactionAware.java:69 | the change is appended to the given flag's existing buffer; every other buffer, the value cache, the registrations and the warnings are unchanged |
| `Transactional.TransactionAware.WarnIfPending` | store/src/java/com/zimbra/cs/mailbox/TransactionAware.java:90-92 | a warning with the buffer's size and the object's name is logged iff the buffer holds changes; nothing else changes |
| `Transactional.TransactionAware.RemoveChanges` | store/src/java/com/zimbra/cs/mailbox/TransactionAware.java:93 | only the given flag's change slot is removed |
| `TransactionSpec.GetChanges` | store/src/java/com/zimbra/cs/mailbox/TransactionAware.java:72-82 | afterwards the current slot exists with its old contents (empty if new); registrations grow by one exactly when the slot was absent |
| `TransactionLaws.GetChangesIsGetOrCreate` | store/src/java/com/zimbra/cs/mailbox/TransactionAware.java:72-82 | a second getChanges changes nothing (no second registration); a new slot is empty; the other flag's slot is untouched |
| `TransactionLaws.AddChangeAppends` | store/src/java/com/zimbra/cs/mailbox/TransactionAware.java:68-70 | one addChange appends its change to the current buffer and leaves the other slot and the warnings alone |
| `TransactionLaws.AddChangesAppendInOrder` | store/src/java/com/zimbra/cs/mailbox/TransactionAware.java:120-130 | after any sequence of addChange calls the buffer is the old buffer followed by those changes in call order; hasChanges is then true iff that list is non-empty; at most one registration |
| `TransactionLaws.OtherFlagUntouched` | store/src/java/com/zimbra/cs/mailbox/TransactionAware.java:72-94 | for any call sequence that keeps the flag, the other flag's change slot and value slot keep their presence and contents |
| `TransactionLaws.ResetChangesDiscards` | store/src/java/com/zimbra/cs/mailbox/TransactionAware.java:88-94 | after reset the slot is gone, hasChanges is false and the list is empty; a warning with the count and the name is added iff the buffer was non-empty |
| `TransactionLaws.ResetChangesTwice` | store/src/java/com/zimbra/cs/mailbox/TransactionAware.java:88-94 | a second reset changes no buffer and logs no warning; it only registers the object once more |
| `TransactionLaws.ResetUntouchedRegisters` | store/src/java/com/zimbra/cs/mailbox/TransactionAware.java:89 | resetting an untouched slot still registers the object, without warning |
| `TransactionLaws.NoGetter` | store/src/java/com/zimbra/cs/mailbox/TransactionAware.java:54-62 | without a getter data() yields `None` and neither it nor clearLocalCache changes anything |
| `TransactionLaws.ClearLocalCacheForcesReload` | store/src/java/com/zimbra/cs/mailbox/TransactionAware.java:58-62 | clearLocalCache keeps the change buffers and the other value slot; the next data() loads afresh |
| `TransactionLaws.CachedValueServed` | store/src/java/com/zimbra/cs/mailbox/TransactionAware.java:185-198 | with a value cached, data() returns it whatever the loader would give, and changes nothing |
| `TransactionLaws.LoadedAtMostOnce` | store/src/java/com/zimbra/cs/mailbox/TransactionAware.java:185-198 | over any call sequence that keeps the flag and never clears the value cache, the loader runs at most once, and never once a value is cached, which then survives |
| `TransactionLaws.StepTracked` | store/src/java/com/zimbra/cs/mailbox/TransactionAware.java:72-94 | every single call keeps `Tracked`: live buffers plus loads never exceed registrations, cached values never exceed loads |
| `TransactionLaws.RunTracked` | store/src/java/com/zimbra/cs/mailbox/TransactionAware.java:72-94 | `Tracked` holds after any sequence of calls |
| `TransactionLaws.InitialTracked` | store/src/java/com/zimbra/cs/mailbox/TransactionAware.java:39-44 | a new object satisfies `Tracked` and has no changes |
| `Scenarios.MapPutsKeepOrder` | store/src/java/com/zimbra/cs/mailbox/TransactionAware.java:68-86 | a map put then a put-all give exactly those two records, in that order |
| `Scenarios.LruAccessStaysInTransaction` | store/src/java/com/zimbra/cs/mailbox/TransactionAware.java:64-73 | an LRU access added inside a transaction is not seen outside it |
| `Scenarios.LruResetWarns` | store/src/java/com/zimbra/cs/mailbox/TransactionAware.java:88-94 | resetting one pending LRU access logs one warning for one change; afterwards there are no changes |
| `Scenarios.ValueLoadedOnce` | store/src/java/com/zimbra/cs/mailbox/TransactionAware.java:185-202 | a second data() returns the first loaded value, not the loader's new one; after clearLocalCache the loader's value is taken again |

## Left out

- Thread identity and thread-local storage: the model is one thread's view. Each slot is private to its thread, so other threads cannot affect it. Cross-thread isolation comes from the thread-local cache, which is not part of this model.
- The cache registry (`ThreadLocalCacheManager.newThreadLocalCache`) is not part of this model. Each object, and each getter, owns its own per-flag map. Sharing a store between objects created with the same name is not modelled.
- `ThreadLocalCache.get`/`remove` are written out at their call sites as map lookup, insert and removal. The callable passed to `get` is inlined.
- `CachedChanges` only wraps a `Changes` and hands it back, so the slot holds the `Changes` object directly.
- `Getter.loadCacheValue` is abstract, and the lazy `CachedObject` is not part of this model. Only the eager `GreedyGetter` strategy is modelled, so `Getter` here is `Getter` with `GreedyGetter.loadCacheValue`.
- `loadObject()` is abstract. Its result is the parameter `loaded`. Exceptions thrown by loaders or by `Callable`s are not modelled.
- `Changes.GetChanges` and `TransactionAware.GetChangeList`: the source returns the live `ArrayList`, which a caller could then mutate. The model returns the contents as a value, so that aliasing is not captured.
- `Changes.Size`: Java's `int` size is an unbounded `nat` here. A list longer than 2^31-1 is out of reach in practice.
- Trace logging in `reset` and `getObject`, and the `toString` methods (`MoreObjects` formatting), are output only and are left out. The warning in `resetChanges` is the ghost log `warnings`.
- `getName`, `getObjectName` and `Change.getChangeType` are accessors, modelled as the fields `name`, `objectName` and `changeType`.
- `TransactionLaws.RunTracked`, `TransactionLaws.InitialTracked` and the link from `Transactional.TransactionAware.constructor` to `TransactionSpec.Initial` assume each object has its own getter that no other object has used. The source lets objects share a getter; then one object can be served from the entry another object loaded, and it is never registered (loads 1, registrations 0). `Model()` counts the getter's loads per object, which is only meaningful without sharing.
- What the tracker does with its registrations (deduplication, draining at commit or abort) is not visible here. The model records each `addToTracker` call.
