/**
 * Properties of a transaction-aware object over single calls and over whole
 * sequences of calls, proved on the functions of `TransactionSpec`.
 */
module TransactionLaws {
  import opened Wrappers
  import opened TransactionSpec

  /** Get-or-create: a second getChanges finds the slot the first one made,
      so it neither changes the buffer nor registers again. */
  lemma GetChangesIsGetOrCreate<V, C>(v: View<V, C>)
    ensures GetChanges(GetChanges(v)) == GetChanges(v)
    ensures v.inTransaction !in v.changes ==> GetChangeList(GetChanges(v)) == []
    ensures SameChangeSlot(v, GetChanges(v), !v.inTransaction)
  {
  }

  /** A run of addChange calls appends exactly those changes, in call order,
      to the current flag's buffer, registers at most once, and leaves the
      other flag's slot as it was. */
  lemma {:induction false} AddChangesAppendInOrder<V, C>(v: View<V, C>, cs: seq<C>)
    ensures Run(v, AddCalls(cs)).inTransaction == v.inTransaction
    ensures Pending(Run(v, AddCalls(cs)), v.inTransaction) == Pending(v, v.inTransaction) + cs
    ensures HasChanges(Run(v, AddCalls(cs))) <==> Pending(v, v.inTransaction) + cs != []
    ensures SameChangeSlot(v, Run(v, AddCalls(cs)), !v.inTransaction)
    ensures Run(v, AddCalls(cs)).registrations
            == v.registrations + (if cs == [] || v.inTransaction in v.changes then 0 else 1)
    ensures Run(v, AddCalls(cs)).warnings == v.warnings
    decreases |cs|
  {
    if cs != [] {
      var w := AddChange(v, cs[0]);
      AddChangeAppends(v, cs[0]);
      assert Run(v, AddCalls(cs)) == Run(w, AddCalls(cs[1..]));
      AddChangesAppendInOrder(w, cs[1..]);
      assert Pending(v, v.inTransaction) + [cs[0]] + cs[1..] == Pending(v, v.inTransaction) + cs;
    }
  }

  /** One addChange appends its change to the current flag's buffer. */
  lemma AddChangeAppends<V, C>(v: View<V, C>, c: C)
    ensures AddChange(v, c).inTransaction == v.inTransaction
    ensures Pending(AddChange(v, c), v.inTransaction) == Pending(v, v.inTransaction) + [c]
    ensures SameChangeSlot(v, AddChange(v, c), !v.inTransaction)
    ensures AddChange(v, c).registrations
            == v.registrations + (if v.inTransaction in v.changes then 0 else 1)
    ensures AddChange(v, c).warnings == v.warnings
  {
  }

  /** Slot independence: as long as the flag stays put, nothing a thread does
      reaches the other flag's change slot or value slot. */
  lemma {:induction false} OtherFlagUntouched<V, C>(v: View<V, C>, calls: seq<Call<V, C>>)
    requires FlagFixed(calls)
    ensures Run(v, calls).inTransaction == v.inTransaction
    ensures SameChangeSlot(v, Run(v, calls), !v.inTransaction)
    ensures SameValueSlot(v, Run(v, calls), !v.inTransaction)
    decreases |calls|
  {
    if calls != [] {
      assert !calls[0].SetInTransactionCall?;
      assert FlagFixed(calls[1..]) by {
        forall i | 0 <= i < |calls[1..]| ensures !calls[1..][i].SetInTransactionCall? {
          assert calls[1..][i] == calls[i + 1];
        }
      }
      OtherFlagUntouched(Step(v, calls[0]), calls[1..]);
    }
  }

  /** resetChanges warns, with the number of changes and the object's name,
      exactly when the buffer held changes, and afterwards the slot is gone:
      hasChanges is false and the change list is empty.  The other flag's
      slot is untouched. */
  lemma ResetChangesDiscards<V, C>(v: View<V, C>)
    ensures v.inTransaction !in ResetChanges(v).changes
    ensures !HasChanges(ResetChanges(v)) && GetChangeList(ResetChanges(v)) == []
    ensures HasChanges(v) ==>
      ResetChanges(v).warnings == v.warnings + [Warning(|GetChangeList(v)|, v.name)]
    ensures !HasChanges(v) ==> ResetChanges(v).warnings == v.warnings
    ensures SameChangeSlot(v, ResetChanges(v), !v.inTransaction)
    ensures ResetChanges(v).values == v.values
  {
  }

  /** A second resetChanges logs nothing and leaves the buffers as the first
      left them; only its getChanges re-creates the slot before dropping it,
      which registers the object once more. */
  lemma ResetChangesTwice<V, C>(v: View<V, C>)
    ensures ResetChanges(ResetChanges(v))
         == ResetChanges(v).(registrations := ResetChanges(v).registrations + 1)
  {
  }

  /** Resetting an untouched slot still creates and registers it first. */
  lemma ResetUntouchedRegisters<V, C>(v: View<V, C>)
    requires v.inTransaction !in v.changes
    ensures ResetChanges(v).registrations == v.registrations + 1
    ensures ResetChanges(v).warnings == v.warnings
  {
  }

  /** Without a getter data() yields nothing and clearLocalCache does nothing. */
  lemma NoGetter<V, C>(v: View<V, C>, loaded: V)
    requires !v.hasGetter
    ensures Data(v, loaded) == None
    ensures LoadData(v, loaded) == v
    ensures ClearLocalCache(v) == v
  {
  }

  /** clearLocalCache drops only the current flag's value slot: the change
      buffers and the other value slot stay, and the next data() loads anew. */
  lemma ClearLocalCacheForcesReload<V, C>(v: View<V, C>, loaded: V)
    requires v.hasGetter
    ensures ClearLocalCache(v).changes == v.changes
    ensures SameValueSlot(v, ClearLocalCache(v), !v.inTransaction)
    ensures Data(ClearLocalCache(v), loaded) == Some(loaded)
    ensures LoadData(ClearLocalCache(v), loaded).loads == v.loads + 1
  {
  }

  /** Once a value is cached, every later data() returns it whatever the
      loader would now produce, and the loader is not invoked. */
  lemma CachedValueServed<V, C>(v: View<V, C>, loaded: V)
    requires v.hasGetter && v.inTransaction in v.values
    ensures Data(v, loaded) == Some(v.values[v.inTransaction])
    ensures LoadData(v, loaded) == v
  {
  }

  /** Load at most once: across any calls that keep the flag and never clear
      the value cache, the loader runs at most once, and never once a value
      is cached; a cached value survives every such call. */
  lemma {:induction false} LoadedAtMostOnce<V, C>(v: View<V, C>, calls: seq<Call<V, C>>)
    requires FlagFixed(calls) && KeepsValues(calls)
    ensures Run(v, calls).loads <= v.loads + 1
    ensures v.inTransaction in v.values ==>
      Run(v, calls).loads == v.loads && SameValueSlot(v, Run(v, calls), v.inTransaction)
    decreases |calls|
  {
    if calls != [] {
      assert !calls[0].SetInTransactionCall? && !calls[0].ClearLocalCacheCall?;
      assert FlagFixed(calls[1..]) && KeepsValues(calls[1..]) by {
        forall i | 0 <= i < |calls[1..]|
          ensures !calls[1..][i].SetInTransactionCall? && !calls[1..][i].ClearLocalCacheCall?
        {
          assert calls[1..][i] == calls[i + 1];
        }
      }
      var w := Step(v, calls[0]);
      LoadedAtMostOnce(w, calls[1..]);
      assert w.inTransaction == v.inTransaction;
      assert SameValueSlot(v, w, v.inTransaction) || v.inTransaction !in v.values;
      assert w.loads == v.loads || (w.loads == v.loads + 1 && v.inTransaction in w.values);
    }
  }

  /** A single call keeps the tracker's bookkeeping. */
  lemma StepTracked<V, C>(v: View<V, C>, call: Call<V, C>)
    requires Tracked(v)
    ensures Tracked(Step(v, call))
  {
  }

  /** The tracker's bookkeeping holds after any sequence of calls. */
  lemma {:induction false} RunTracked<V, C>(v: View<V, C>, calls: seq<Call<V, C>>)
    requires Tracked(v)
    ensures Tracked(Run(v, calls))
    decreases |calls|
  {
    if calls != [] {
      StepTracked(v, calls[0]);
      RunTracked(Step(v, calls[0]), calls[1..]);
    }
  }

  /** A new object is tracked consistently from the start. */
  lemma InitialTracked<V, C>(name: string, hasGetter: bool, inTransaction: bool)
    ensures Tracked(Initial<V, C>(name, hasGetter, inTransaction))
    ensures !HasChanges(Initial<V, C>(name, hasGetter, inTransaction))
  {
  }
}
