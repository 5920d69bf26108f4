/**
 * A transaction-aware object: a named field of a domain object whose
 * mutations are logged per thread and per in-transaction flag, with an
 * optional per-flag cache of the field's loaded value.  The per-thread
 * caches are modelled for one thread: each is a map from the flag to the
 * slot's entry.
 */
module Transactional {
  import opened Wrappers
  import opened ChangeLog
  import opened Tracking
  import TS = TransactionSpec

  /** A value cache entry built eagerly from the loaded value. */
  datatype GreedyCachedObject<V> = GreedyCachedObject(name: string, value: V)

  /**
   * The loader of an object's value, with the eager strategy: the entry is
   * built from the loaded value as soon as the slot is filled.
   */
  class Getter<V> {
    const objectName: string
    /** The per-flag value slots of the current thread. */
    var localCache: map<bool, GreedyCachedObject<V>>
    /** How many times the loader has been invoked. */
    ghost var loads: nat

    constructor (objectName: string)
      ensures this.objectName == objectName
      ensures localCache == map[] && loads == 0
    {
      this.objectName := objectName;
      localCache := map[];
      loads := 0;
    }

    /** Build a cache entry by invoking the loader now; `loaded` is the value
        the loader returns at this moment. */
    method LoadCacheValue(loaded: V) returns (entry: GreedyCachedObject<V>)
      modifies this`loads
      ensures entry.name == objectName && entry.value == loaded
      ensures loads == old(loads) + 1
    {
      loads := loads + 1;
      entry := GreedyCachedObject(objectName, loaded);
    }

    /** The value for `obj`'s current flag.  An empty slot is filled by one
        load, which registers `obj` with its tracker; a filled slot is
        returned as it is, without loading or registering. */
    method GetObject<C>(obj: TransactionAware<V, C>, loaded: V) returns (value: V)
      modifies this`localCache, this`loads, obj.tracker`registrations
      ensures var flag := obj.tracker.inTransaction;
        && flag in localCache
        && (flag in old(localCache) ==>
              && localCache == old(localCache)
              && loads == old(loads)
              && obj.tracker.registrations == old(obj.tracker.registrations)
              && value == old(localCache[flag].value))
        && (flag !in old(localCache) ==>
              && localCache == old(localCache)[flag := GreedyCachedObject(objectName, loaded)]
              && loads == old(loads) + 1
              && obj.tracker.registrations == old(obj.tracker.registrations) + [obj]
              && value == loaded)
    {
      var flag := obj.IsInTransaction();
      if flag !in localCache {
        var entry := LoadCacheValue(loaded);
        obj.tracker.AddToTracker(obj);
        localCache := localCache[flag := entry];
      }
      value := localCache[flag].value;
    }

    /** Drop the value slot of the given flag. */
    method ClearCache(inTransaction: bool)
      modifies this`localCache
      ensures localCache == old(localCache) - {inTransaction}
    {
      localCache := localCache - {inTransaction};
    }
  }

  class TransactionAware<V, C> {
    const name: string
    const tracker: TransactionCacheTracker
    /** The per-flag change buffers of the current thread. */
    var threadChanges: map<bool, Changes<C>>
    const transactionAccessor: Getter?<V>
    /** The discard warnings logged for this object, oldest first. */
    ghost var warnings: seq<TS.Warning>

    /** Every buffer carries the object's name, and the two flags never share one. */
    ghost predicate Valid()
      reads this
    {
      && (true in threadChanges ==> threadChanges[true].objectName == name)
      && (false in threadChanges ==> threadChanges[false].objectName == name)
      && (true in threadChanges && false in threadChanges ==> threadChanges[true] != threadChanges[false])
    }

    /** The contents of the current thread's change buffers, per flag. */
    ghost function Buffers(): map<bool, seq<C>>
      reads this`threadChanges, threadChanges.Values
    {
      map flag | flag in threadChanges :: threadChanges[flag].changes
    }

    /** The current thread's cached values, per flag (none without a getter). */
    ghost function CachedValues(): map<bool, V>
      reads transactionAccessor
    {
      if transactionAccessor == null then map[]
      else map flag | flag in transactionAccessor.localCache :: transactionAccessor.localCache[flag].value
    }

    /** How many times this object was handed to the tracker. */
    ghost function Registrations(): nat
      reads tracker
    {
      multiset(tracker.registrations)[this]
    }

    /** How many times the getter's loader has run (none without a getter). */
    ghost function Loads(): nat
      reads transactionAccessor
    {
      if transactionAccessor == null then 0 else transactionAccessor.loads
    }

    /** The object's state as the specification sees it. */
    ghost function Model(): TS.View<V, C>
      reads this, tracker, threadChanges.Values, transactionAccessor
    {
      TS.View(name, transactionAccessor != null, tracker.inTransaction,
              Buffers(), CachedValues(), Registrations(), Loads(), warnings)
    }

    constructor (name: string, cacheTracker: TransactionCacheTracker, getter: Getter?<V>)
      ensures this.name == name && tracker == cacheTracker && transactionAccessor == getter
      ensures threadChanges == map[] && warnings == []
      ensures Valid()
      ensures getter == null || (getter.loads == 0 && getter.localCache == map[]) ==>
                Model() == TS.Initial(name, getter != null, cacheTracker.inTransaction)
    {
      this.name := name;
      tracker := cacheTracker;
      threadChanges := map[];
      transactionAccessor := getter;
      warnings := [];
    }

    function GetName(): string
    {
      name
    }

    function IsInTransaction(): bool
      reads this, tracker
    {
      tracker.inTransaction
    }

    /** data(): the getter's value for the current flag, `None` without a getter. */
    method Data(loaded: V) returns (value: Option<V>)
      requires Valid()
      modifies transactionAccessor, tracker`registrations
      ensures Valid()
      ensures value == TS.Data(old(Model()), loaded)
      ensures Model() == TS.LoadData(old(Model()), loaded)
      ensures tracker.registrations
              == old(tracker.registrations)
                 + (if transactionAccessor != null && old(tracker.inTransaction !in transactionAccessor.localCache)
                    then [this] else [])
    {
      if transactionAccessor != null {
        var v := transactionAccessor.GetObject(this, loaded);
        value := Some(v);
      } else {
        value := None;
      }
    }

    /** clearLocalCache: drop the current flag's value slot, if there is a getter. */
    method ClearLocalCache()
      requires Valid()
      modifies transactionAccessor
      ensures Valid()
      ensures Model() == TS.ClearLocalCache(old(Model()))
    {
      if transactionAccessor != null {
        transactionAccessor.ClearCache(IsInTransaction());
      }
    }

    /** hasChanges: whether the current flag's buffer holds anything (the
        buffer is created if it did not exist). */
    method HasChanges() returns (r: bool)
      requires Valid()
      modifies this`threadChanges, tracker`registrations
      ensures Valid()
      ensures fresh(threadChanges.Values - old(threadChanges.Values))
      ensures r == TS.HasChanges(old(Model()))
      ensures Model() == TS.GetChanges(old(Model()))
      ensures tracker.registrations
              == old(tracker.registrations) + (if old(tracker.inTransaction in threadChanges) then [] else [this])
    {
      var changes := GetChanges();
      r := changes.HasChanges();
    }

    /** addChange: append to the current flag's buffer. */
    method AddChange(change: C)
      requires Valid()
      modifies this`threadChanges, tracker`registrations, threadChanges.Values
      ensures Valid()
      ensures fresh(threadChanges.Values - old(threadChanges.Values))
      ensures Model() == TS.AddChange(old(Model()), change)
      ensures tracker.registrations
              == old(tracker.registrations) + (if old(tracker.inTransaction in threadChanges) then [] else [this])
    {
      var changes := GetChanges();
      ghost var log := tracker.registrations;
      AppendChange(IsInTransaction(), change);
      assert tracker.registrations == log;
    }

    /** Append `change` to the buffer of `flag`, which exists; nothing else changes. */
    method AppendChange(flag: bool, change: C)
      requires Valid() && flag in threadChanges
      modifies threadChanges[flag]
      ensures Valid()
      ensures flag in old(Buffers())
      ensures Model() == old(Model()).(changes := old(Buffers())[flag := old(Buffers())[flag] + [change]])
    {
      var changes := threadChanges[flag];
      ghost var before := Buffers();
      changes.AddChange(change);
      ghost var expected := before[flag := before[flag] + [change]];
      assert Buffers().Keys == expected.Keys;
      forall k | k in expected ensures Buffers()[k] == expected[k] {
        if k != flag {
          assert threadChanges[k] != changes;
        }
      }
    }

    /** getChanges: the buffer of the current flag, created and registered
        with the tracker on first use, the same buffer object afterwards. */
    method GetChanges() returns (changes: Changes<C>)
      requires Valid()
      modifies this`threadChanges, tracker`registrations
      ensures Valid()
      ensures fresh(threadChanges.Values - old(threadChanges.Values))
      ensures Model() == TS.GetChanges(old(Model()))
      ensures tracker.registrations
              == old(tracker.registrations) + (if old(tracker.inTransaction in threadChanges) then [] else [this])
      ensures threadChanges == old(threadChanges)[tracker.inTransaction := changes]
      ensures tracker.inTransaction in old(threadChanges) ==> changes == old(threadChanges[tracker.inTransaction])
      ensures tracker.inTransaction !in old(threadChanges) ==> fresh(changes)
      ensures changes.objectName == name
    {
      var flag := IsInTransaction();
      ghost var before := Model();
      if flag !in threadChanges {
        tracker.AddToTracker(this);
        var created := new Changes<C>(name);
        threadChanges := threadChanges[flag := created];
        assert Buffers() == before.changes[flag := []];
        assert Registrations() == before.registrations + 1 by {
          assert multiset(tracker.registrations) == multiset(old(tracker.registrations)) + multiset{this};
        }
      }
      changes := threadChanges[flag];
      assert CachedValues() == before.values && Loads() == before.loads;
    }

    /** getChangeList: the current flag's changes, oldest first. */
    method GetChangeList() returns (list: seq<C>)
      requires Valid()
      modifies this`threadChanges, tracker`registrations
      ensures Valid()
      ensures fresh(threadChanges.Values - old(threadChanges.Values))
      ensures list == TS.GetChangeList(old(Model()))
      ensures Model() == TS.GetChanges(old(Model()))
      ensures tracker.registrations
              == old(tracker.registrations) + (if old(tracker.inTransaction in threadChanges) then [] else [this])
    {
      var changes := GetChanges();
      list := changes.GetChanges();
    }

    /** resetChanges: warn if the current flag's buffer holds changes, then
        drop its slot. */
    method ResetChanges()
      requires Valid()
      modifies this`threadChanges, this`warnings, tracker`registrations
      ensures Valid()
      ensures Model() == TS.ResetChanges(old(Model()))
      ensures tracker.registrations
              == old(tracker.registrations) + (if old(tracker.inTransaction in threadChanges) then [] else [this])
    {
      var changes := GetChanges();
      ghost var log := tracker.registrations;
      WarnIfPending(changes);
      RemoveChanges(IsInTransaction());
      assert tracker.registrations == log;
    }

    /** Log a warning naming the object and counting the changes if `changes`
        holds any; nothing else changes. */
    method WarnIfPending(changes: Changes<C>)
      modifies this`warnings
      ensures warnings == old(warnings) + if changes.HasChanges() then [TS.Warning(changes.Size(), name)] else []
      ensures Model() == old(Model()).(warnings := warnings)
    {
      if changes.HasChanges() {
        warnings := warnings + [TS.Warning(changes.Size(), GetName())];
      }
    }

    /** Discard the change slot of `flag` and its buffer; nothing else changes. */
    method RemoveChanges(flag: bool)
      requires Valid()
      modifies this`threadChanges
      ensures Valid()
      ensures threadChanges == old(threadChanges) - {flag}
      ensures Model() == old(Model()).(changes := old(Model()).changes - {flag})
    {
      threadChanges := threadChanges - {flag};
      assert Buffers().Keys == old(Buffers()).Keys - {flag};
    }
  }
}
