/**
 * The behaviour of one transaction-aware object as seen by the one thread
 * that uses it, written as pure functions over a `View`.  Every operation of
 * the object is a function from the view before the call to the view after
 * it; the class `Transactional.TransactionAware` is proved to follow these
 * functions, so the lemmas proved here about sequences of calls hold of it.
 */
module TransactionSpec {
  import opened Wrappers

  /** The warning logged when uncommitted changes are thrown away:
      how many changes were dropped, and for which object. */
  datatype Warning = Warning(count: nat, name: string)

  /**
   * One object's state in one thread.
   *  - `changes`: the per-flag change buffers; a flag absent from the map has no slot.
   *  - `values`: the per-flag cached values of the getter (always empty without one).
   *  - `registrations`: how many times the object was handed to the tracker.
   *  - `loads`: how many times the getter's loader was invoked.
   *  - `warnings`: the discard warnings logged so far, oldest first.
   */
  datatype View<V, C> = View(
    name: string,
    hasGetter: bool,
    inTransaction: bool,
    changes: map<bool, seq<C>>,
    values: map<bool, V>,
    registrations: nat,
    loads: nat,
    warnings: seq<Warning>)

  /** The calls a thread can make; `DataCall(x)` carries the value the loader
      would produce if it were invoked at that moment. */
  datatype Call<V, C> =
    | GetChangesCall
    | AddChangeCall(change: C)
    | HasChangesCall
    | GetChangeListCall
    | ResetChangesCall
    | DataCall(loaded: V)
    | ClearLocalCacheCall
    | SetInTransactionCall(inTransaction: bool)

  /** A newly constructed object: no slot of either kind, nothing registered. */
  function Initial<V, C>(name: string, hasGetter: bool, inTransaction: bool): View<V, C>
  {
    View(name, hasGetter, inTransaction, map[], map[], 0, 0, [])
  }

  /** The changes buffered under `flag`; an absent slot reads as no changes. */
  function Pending<V, C>(v: View<V, C>, flag: bool): seq<C>
  {
    if flag in v.changes then v.changes[flag] else []
  }

  /** `v` and `w` agree on the change slot of `flag`: presence and contents. */
  ghost predicate SameChangeSlot<V, C>(v: View<V, C>, w: View<V, C>, flag: bool)
  {
    (flag in v.changes <==> flag in w.changes) && Pending(v, flag) == Pending(w, flag)
  }

  /** `v` and `w` agree on the value slot of `flag`: presence and value. */
  ghost predicate SameValueSlot<V, C>(v: View<V, C>, w: View<V, C>, flag: bool)
  {
    (flag in v.values <==> flag in w.values) && (flag in v.values ==> v.values[flag] == w.values[flag])
  }

  /** getChanges: get-or-create the change slot of the current flag.  Creating
      it registers the object with the tracker; a present slot is reused. */
  function GetChanges<V, C>(v: View<V, C>): (w: View<V, C>)
    ensures v.inTransaction in w.changes
    ensures w.changes[v.inTransaction] == Pending(v, v.inTransaction)
    ensures w.registrations == v.registrations + (if v.inTransaction in v.changes then 0 else 1)
  {
    var flag := v.inTransaction;
    if flag in v.changes then v
    else v.(changes := v.changes[flag := []], registrations := v.registrations + 1)
  }

  /** hasChanges: whether the current flag's buffer holds anything. */
  function HasChanges<V, C>(v: View<V, C>): bool
  {
    Pending(v, v.inTransaction) != []
  }

  /** getChangeList: the current flag's buffer, oldest change first. */
  function GetChangeList<V, C>(v: View<V, C>): seq<C>
  {
    Pending(v, v.inTransaction)
  }

  /** addChange: append to the current flag's buffer, creating it if needed. */
  function AddChange<V, C>(v: View<V, C>, change: C): View<V, C>
  {
    var w := GetChanges(v);
    w.(changes := w.changes[v.inTransaction := w.changes[v.inTransaction] + [change]])
  }

  /** resetChanges: fetch (possibly create) the buffer, warn if it holds
      changes, then drop the slot. */
  function ResetChanges<V, C>(v: View<V, C>): View<V, C>
  {
    var w := GetChanges(v);
    var dropped := w.changes[v.inTransaction];
    w.(changes := w.changes - {v.inTransaction},
       warnings := w.warnings + if dropped != [] then [Warning(|dropped|, v.name)] else [])
  }

  /** data(): no getter gives `None`; otherwise the cached value of the
      current flag, or `loaded` when the slot is empty. */
  function Data<V, C>(v: View<V, C>, loaded: V): Option<V>
  {
    if !v.hasGetter then None
    else if v.inTransaction in v.values then Some(v.values[v.inTransaction])
    else Some(loaded)
  }

  /** The state after data(): an empty value slot is filled by one load,
      which also registers the object with the tracker. */
  function LoadData<V, C>(v: View<V, C>, loaded: V): View<V, C>
  {
    if !v.hasGetter || v.inTransaction in v.values then v
    else v.(values := v.values[v.inTransaction := loaded],
            loads := v.loads + 1,
            registrations := v.registrations + 1)
  }

  /** clearLocalCache: drop the current flag's value slot, if there is a getter. */
  function ClearLocalCache<V, C>(v: View<V, C>): View<V, C>
  {
    if v.hasGetter then v.(values := v.values - {v.inTransaction}) else v
  }

  /** The effect of one call on the view. */
  function Step<V, C>(v: View<V, C>, call: Call<V, C>): View<V, C>
  {
    match call
    case GetChangesCall => GetChanges(v)
    case AddChangeCall(c) => AddChange(v, c)
    case HasChangesCall => GetChanges(v)
    case GetChangeListCall => GetChanges(v)
    case ResetChangesCall => ResetChanges(v)
    case DataCall(x) => LoadData(v, x)
    case ClearLocalCacheCall => ClearLocalCache(v)
    case SetInTransactionCall(b) => v.(inTransaction := b)
  }

  /** The effect of a sequence of calls, made in order. */
  function Run<V, C>(v: View<V, C>, calls: seq<Call<V, C>>): View<V, C>
    decreases |calls|
  {
    if calls == [] then v else Run(Step(v, calls[0]), calls[1..])
  }

  /** One addChange call per element of `cs`, in order. */
  function AddCalls<V, C>(cs: seq<C>): seq<Call<V, C>>
  {
    if cs == [] then [] else [AddChangeCall(cs[0])] + AddCalls(cs[1..])
  }

  /** No call in `calls` changes the in-transaction flag. */
  predicate FlagFixed<V, C>(calls: seq<Call<V, C>>)
  {
    forall i :: 0 <= i < |calls| ==> !calls[i].SetInTransactionCall?
  }

  /** No call in `calls` clears the value cache. */
  predicate KeepsValues<V, C>(calls: seq<Call<V, C>>)
  {
    forall i :: 0 <= i < |calls| ==> !calls[i].ClearLocalCacheCall?
  }

  /** Bookkeeping the tracker can rely on: every live buffer and every load
      was preceded by its own registration, every cached value by a load,
      and an object without a getter never loads. */
  ghost predicate Tracked<V, C>(v: View<V, C>)
  {
    && |v.changes| + v.loads <= v.registrations
    && |v.values| <= v.loads
    && (!v.hasGetter ==> v.values == map[] && v.loads == 0)
  }
}
