/**
 * Clients of `Transactional.TransactionAware` whose usage examples are
 * verified against the class contracts alone.
 */
module Scenarios {
  import opened Wrappers
  import opened ChangeLog
  import opened Tracking
  import opened Transactional
  import TS = TransactionSpec

  type MapChange = Change<map<string, string>>

  /** A map put followed by a put-all: the change list holds exactly these
      two records, in that order. */
  method MapPutsKeepOrder() returns (list: seq<MapChange>)
    ensures list == [Change(MapPut, map["x" := "y"]), Change(MapPutAll, map["a" := "1"])]
  {
    var tracker := new TransactionCacheTracker(true);
    var obj := new TransactionAware<int, MapChange>("mailbox-map", tracker, null);
    var put := Change(MapPut, map["x" := "y"]);
    var putAll := Change(MapPutAll, map["a" := "1"]);
    assert obj.Model().changes == map[] && obj.Model().inTransaction;
    obj.AddChange(put);
    assert [] + [put] == [put];
    assert obj.Model().changes == map[true := [put]];
    obj.AddChange(putAll);
    assert [put] + [putAll] == [put, putAll];
    assert obj.Model().changes == map[true := [put, putAll]];
    list := obj.GetChangeList();
  }

  /** An LRU access recorded inside a transaction is invisible outside it. */
  method LruAccessStaysInTransaction() returns (pendingInside: bool, pendingOutside: bool)
    ensures pendingInside && !pendingOutside
  {
    var tracker := new TransactionCacheTracker(true);
    var lru := new TransactionAware<int, Change<int>>("mailbox-lru", tracker, null);
    var access := Change(LruMarkAccessed, 42);
    assert lru.Model().changes == map[] && lru.Model().inTransaction;
    lru.AddChange(access);
    assert [] + [access] == [access];
    assert lru.Model().changes == map[true := [access]];
    pendingInside := lru.HasChanges();
    ghost var m := lru.Model();
    tracker.SetInTransaction(false);
    assert lru.Model() == m.(inTransaction := false);
    pendingOutside := lru.HasChanges();
  }

  /** Resetting a buffer that holds one LRU access logs one warning for one
      change, after which the object has no changes. */
  method LruResetWarns() returns (pendingBefore: bool, pendingAfter: bool, ghost warned: seq<TS.Warning>)
    ensures pendingBefore && !pendingAfter
    ensures warned == [TS.Warning(1, "mailbox-lru")]
  {
    var tracker := new TransactionCacheTracker(true);
    var lru := new TransactionAware<int, Change<int>>("mailbox-lru", tracker, null);
    var access := Change(LruMarkAccessed, 42);
    assert lru.Model().changes == map[] && lru.Model().inTransaction && lru.Model().warnings == [];
    lru.AddChange(access);
    assert [] + [access] == [access];
    assert lru.Model().changes == map[true := [access]];
    pendingBefore := lru.HasChanges();
    lru.ResetChanges();
    warned := lru.warnings;
    pendingAfter := lru.HasChanges();
  }

  /** The loader runs on the first data() of a flag only: later reads return
      the cached value whatever the loader would now produce, until
      clearLocalCache forces a fresh load. */
  method ValueLoadedOnce() returns (first: Option<int>, second: Option<int>, reloaded: Option<int>)
    ensures first == Some(7) && second == Some(7) && reloaded == Some(9)
  {
    var tracker := new TransactionCacheTracker(false);
    var getter := new Getter<int>("folder-count");
    var obj := new TransactionAware<int, Change<int>>("folder-count", tracker, getter);
    first := obj.Data(7);
    second := obj.Data(8);
    obj.ClearLocalCache();
    reloaded := obj.Data(9);
    assert getter.loads == 2;
  }
}
