/** The registry object of app/clients/tts/gpt_sovits.py, whose methods follow the step system of `KeyLocks`. */
module KeyLockRegistries {
  import opened Options
  import opened KeyLocks

  /** `_key_locks` and the entries it hands out. */
  class KeyLockRegistry {
    var registry: map<CacheKey, EntryId>
    var entries: map<EntryId, Entry>
    ghost var tasks: map<Task, TaskState>

    ghost function View(): State
      reads this
    {
      State(registry, entries, tasks)
    }

    ghost predicate Valid()
      reads this
    {
      Inv(View())
    }

    constructor ()
      ensures Valid() && View() == INITIAL
    {
      registry, entries, tasks := map[], map[], map[];
    }

    /** `_acquire_key_lock` up to its wait. */
    method Request(ghost t: Task, key: CacheKey, spare: EntryId) returns (e: EntryId)
      requires Valid() && t !in tasks && spare !in entries
      modifies this
      ensures Valid() && View() == AfterRequest(old(View()), t, key, spare) && tasks[t] == Waiting(e, false)
    {
      RequestKeeps(View(), t, key, spare);
      if key !in registry {
        registry := registry[key := spare];
        entries := entries[spare := Entry(key, 0, false)];
      }
      e := registry[key];
      entries := entries[e := entries[e].(users := entries[e].users + 1)];
      tasks := tasks[t := Waiting(e, false)];
      assert View() == AfterRequest(old(View()), t, key, spare);
    }

    /** The wait ends with the lock, and the caller enters. */
    method Acquired(ghost t: Task, e: EntryId)
      requires Valid() && Enabled(View(), Enter(t)) && tasks[t].entry == e
      modifies `tasks
      ensures Valid() && View() == Do(old(View()), Enter(t))
    {
      EnterKeeps(View(), t);
      tasks := tasks[t := Inside(e)];
    }

    method LockGranted(ghost t: Task, e: EntryId)
      requires Valid() && Enabled(View(), Grant(t)) && tasks[t].entry == e
      modifies `entries, `tasks
      ensures Valid() && View() == Do(old(View()), Grant(t))
    {
      GrantKeeps(View(), t);
      entries := entries[e := entries[e].(locked := true)];
      tasks := tasks[t := Waiting(e, true)];
    }

    /** The wait ends with an exception. */
    method Abandon(ghost t: Task, e: EntryId)
      requires Valid() && Enabled(View(), Cancel(t)) && tasks[t].entry == e
      modifies this
      ensures Valid() && View() == Do(old(View()), Cancel(t))
    {
      LeaveKeeps(View(), t, e);
      UserIsCounted(View(), t, e);
      DropUser(t, e);
    }

    method Release(ghost t: Task, e: EntryId)
      requires Valid() && Enabled(View(), KeyLocks.Release(t)) && tasks[t].entry == e
      modifies this
      ensures Valid() && View() == Do(old(View()), KeyLocks.Release(t))
    {
      ReleaseKeeps(View(), t);
      UserIsCounted(View(), t, e);
      entries := entries[e := entries[e].(locked := false)];
      DropUser(t, e);
    }

    method DropUser(ghost t: Task, e: EntryId)
      requires e in entries && entries[e].users > 0
      modifies this
      ensures View() == KeyLocks.DropUser(old(View()), t, e)
    {
      var key := entries[e].key;
      entries := entries[e := entries[e].(users := entries[e].users - 1)];
      if entries[e].users == 0 && key in registry && registry[key] == e {
        registry := registry - {key};
      }
      tasks := tasks[t := Gone];
    }
  }
}
