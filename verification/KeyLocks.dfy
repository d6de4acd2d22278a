/** The per-key synthesis locks of app/clients/tts/gpt_sovits.py: reference-counted entries that are dropped
    from the registry with their last user and made anew for the next one.

    Entries have an identity of their own, since a key can get a new entry while an old one still exists. */
module KeyLocks {
  import opened Options

  type Task = nat
  type EntryId = nat
  type CacheKey = string

  /** `_KeyLock`, with the key it was made for. */
  datatype Entry = Entry(key: CacheKey, users: nat, locked: bool)

  datatype TaskState =
    | Waiting(entry: EntryId, granted: bool)   // granted: the lock is acquired but its waiter has not gone on
    | Inside(entry: EntryId)
    | Gone

  datatype State = State(registry: map<CacheKey, EntryId>, entries: map<EntryId, Entry>, tasks: map<Task, TaskState>)

  const INITIAL: State := State(map[], map[], map[])

  predicate Uses(s: State, t: Task, e: EntryId) {
    t in s.tasks && !s.tasks[t].Gone? && s.tasks[t].entry == e
  }

  /** The task has the lock of `e`, whether or not it knows yet. */
  predicate Holds(s: State, t: Task, e: EntryId) {
    Uses(s, t, e) && (s.tasks[t].Inside? || s.tasks[t].granted)
  }

  /** The task is in the critical section of `key`. */
  predicate InsideKey(s: State, t: Task, key: CacheKey) {
    t in s.tasks && s.tasks[t].Inside? && s.tasks[t].entry in s.entries && s.entries[s.tasks[t].entry].key == key
  }

  datatype Action =
    | Request(task: Task, key: CacheKey, spare: EntryId) | Grant(task: Task) | Enter(task: Task)
    | Cancel(task: Task) | Release(task: Task)

  predicate IsWaiting(s: State, t: Task) {
    t in s.tasks && s.tasks[t].Waiting? && s.tasks[t].entry in s.entries
  }

  predicate IsInside(s: State, t: Task) {
    t in s.tasks && s.tasks[t].Inside? && s.tasks[t].entry in s.entries
  }

  predicate Enabled(s: State, a: Action) {
    match a
    case Request(t, key, spare) => t !in s.tasks && spare !in s.entries
    case Grant(t) => IsWaiting(s, t) && !s.tasks[t].granted && !s.entries[s.tasks[t].entry].locked
    case Enter(t) => IsWaiting(s, t) && s.tasks[t].granted
    case Cancel(t) => IsWaiting(s, t)
    case Release(t) => IsInside(s, t)
  }

  /** `setdefault` and the new user. */
  function AfterRequest(s: State, t: Task, key: CacheKey, spare: EntryId): State {
    var e := if key in s.registry then s.registry[key] else spare;
    var entry := if key in s.registry && e in s.entries then s.entries[e] else Entry(key, 0, false);
    State(s.registry[key := e], s.entries[e := entry.(users := entry.users + 1)], s.tasks[t := Waiting(e, false)])
  }

  /** One user less; the last one takes the entry out of the registry, if it is still the registered one. */
  function DropUser(s: State, t: Task, e: EntryId): State
    requires e in s.entries
  {
    var entry := s.entries[e];
    var left := if entry.users > 0 then entry.users - 1 else 0;
    var registered := entry.key in s.registry && s.registry[entry.key] == e;
    State(if left == 0 && registered then s.registry - {entry.key} else s.registry,
          s.entries[e := entry.(users := left)], s.tasks[t := Gone])
  }

  function SetLocked(s: State, e: EntryId, locked: bool): State
    requires e in s.entries
  {
    s.(entries := s.entries[e := s.entries[e].(locked := locked)])
  }

  /** A cancelled waiter that had been granted the lock does not give it back. */
  function Do(s: State, a: Action): State
    requires Enabled(s, a)
  {
    match a
    case Request(t, key, spare) => AfterRequest(s, t, key, spare)
    case Grant(t) =>
      var e := s.tasks[t].entry;
      SetLocked(s, e, true).(tasks := s.tasks[t := Waiting(e, true)])
    case Enter(t) => s.(tasks := s.tasks[t := Inside(s.tasks[t].entry)])
    case Cancel(t) => DropUser(s, t, s.tasks[t].entry)
    case Release(t) => DropUser(SetLocked(s, s.tasks[t].entry, false), t, s.tasks[t].entry)
  }

  ghost predicate Step(s: State, n: State) {
    exists a :: Enabled(s, a) && n == Do(s, a)
  }

  ghost predicate IsRun(run: seq<State>) {
    run != [] && run[0] == INITIAL && forall i :: 0 <= i < |run| - 1 ==> Step(run[i], run[i + 1])
  }

  // ----- Invariant -----

  function UsersOf(s: State, e: EntryId): set<Task> {
    set t | t in s.tasks && Uses(s, t, e)
  }

  ghost predicate EntryOk(s: State, e: EntryId) {
    e in s.entries ==>
      var entry := s.entries[e];
      && entry.users == |UsersOf(s, e)|
      && (entry.users > 0 <==> entry.key in s.registry && s.registry[entry.key] == e)
      && (forall t: Task :: Holds(s, t, e) ==> entry.locked)
      && (forall t: Task, u: Task :: Holds(s, t, e) && Holds(s, u, e) ==> t == u)
  }

  ghost predicate TasksOk(s: State) {
    && (forall t :: t in s.tasks && !s.tasks[t].Gone? ==> s.tasks[t].entry in s.entries)
    && (forall k :: k in s.registry ==> s.registry[k] in s.entries && s.entries[s.registry[k]].key == k)
  }

  ghost predicate Inv(s: State) {
    TasksOk(s) && forall e: EntryId :: EntryOk(s, e)
  }

  lemma UserIsCounted(s: State, t: Task, e: EntryId)
    requires EntryOk(s, e) && e in s.entries && Uses(s, t, e)
    ensures s.entries[e].users > 0
  {
    assert t in UsersOf(s, e);
  }

  lemma RequestKeeps(s: State, t: Task, key: CacheKey, spare: EntryId)
    requires Inv(s) && t !in s.tasks && spare !in s.entries
    ensures Inv(AfterRequest(s, t, key, spare))
  {
    var n := AfterRequest(s, t, key, spare);
    var e := n.tasks[t].entry;
    forall i: EntryId ensures EntryOk(n, i) {
      assert EntryOk(s, i);
      forall u: Task ensures Holds(n, u, i) ==> Holds(s, u, i) {
      }
      if i == e {
        assert UsersOf(n, i) == UsersOf(s, i) + {t};
        if e == spare {
          assert UsersOf(s, i) == {};
        }
      } else {
        assert UsersOf(n, i) == UsersOf(s, i);
      }
    }
  }

  lemma LeaveKeeps(s: State, t: Task, e: EntryId)
    requires Inv(s) && Uses(s, t, e)
    ensures Inv(DropUser(s, t, e))
  {
    var n := DropUser(s, t, e);
    UserIsCounted(s, t, e);
    forall i: EntryId ensures EntryOk(n, i) {
      assert EntryOk(s, i);
      forall u: Task ensures Holds(n, u, i) ==> Holds(s, u, i) {
      }
      if i == e {
        assert UsersOf(n, i) == UsersOf(s, i) - {t};
      } else {
        assert UsersOf(n, i) == UsersOf(s, i);
      }
    }
  }

  lemma GrantKeeps(s: State, t: Task)
    requires Inv(s) && Enabled(s, Grant(t))
    ensures Inv(Do(s, Grant(t)))
  {
    var n := Do(s, Grant(t));
    forall i: EntryId ensures EntryOk(n, i) {
      assert EntryOk(s, i);
      forall u: Task ensures Holds(n, u, i) ==> Holds(s, u, i) || (u == t && Uses(s, t, i)) {
      }
      assert UsersOf(n, i) == UsersOf(s, i);
    }
  }

  lemma EnterKeeps(s: State, t: Task)
    requires Inv(s) && Enabled(s, Enter(t))
    ensures Inv(Do(s, Enter(t)))
  {
    var n := Do(s, Enter(t));
    forall i: EntryId ensures EntryOk(n, i) {
      assert EntryOk(s, i);
      assert UsersOf(n, i) == UsersOf(s, i);
      forall u: Task ensures Holds(n, u, i) ==> Holds(s, u, i) {
      }
    }
  }

  lemma ReleaseKeeps(s: State, t: Task)
    requires Inv(s) && Enabled(s, Release(t))
    ensures Inv(Do(s, Release(t)))
  {
    var e := s.tasks[t].entry;
    var left, n := DropUser(s, t, e), Do(s, Release(t));
    LeaveKeeps(s, t, e);
    assert n == SetLocked(left, e, false);
    forall i: EntryId ensures EntryOk(n, i) {
      assert EntryOk(left, i);
      forall u: Task ensures Holds(n, u, i) ==> Holds(left, u, i) {
      }
      assert UsersOf(n, i) == UsersOf(left, i);
      if i == e {
        forall u: Task ensures !Holds(n, u, e) {
          assert Holds(n, u, e) ==> Holds(s, u, e) && Holds(s, t, e);
          assert EntryOk(s, e);
        }
      }
    }
  }

  lemma StepKeeps(s: State, a: Action)
    requires Inv(s) && Enabled(s, a)
    ensures Inv(Do(s, a))
  {
    match a
    case Request(t, key, spare) => RequestKeeps(s, t, key, spare);
    case Grant(t) => GrantKeeps(s, t);
    case Enter(t) => EnterKeeps(s, t);
    case Cancel(t) => LeaveKeeps(s, t, s.tasks[t].entry);
    case Release(t) => ReleaseKeeps(s, t);
  }

  lemma {:induction false} RunInv(run: seq<State>, i: nat)
    requires IsRun(run) && i < |run|
    ensures Inv(run[i])
  {
    if i > 0 {
      RunInv(run, i - 1);
      assert Step(run[i - 1], run[i - 1 + 1]);
      var a :| Enabled(run[i - 1], a) && run[i] == Do(run[i - 1], a);
      StepKeeps(run[i - 1], a);
    }
  }

  // ----- Results -----

  /** At most one synthesis is inside the critical section of a cache key, however entries come and go. */
  lemma MutualExclusion(run: seq<State>, i: nat, key: CacheKey, t: Task, u: Task)
    requires IsRun(run) && i < |run| && InsideKey(run[i], t, key) && InsideKey(run[i], u, key)
    ensures t == u
  {
    RunInv(run, i);
    var s := run[i];
    var e, f := s.tasks[t].entry, s.tasks[u].entry;
    assert EntryOk(s, e) && EntryOk(s, f);
    UserIsCounted(s, t, e);
    UserIsCounted(s, u, f);
    assert Holds(s, t, e) && Holds(s, u, f);
  }

  /** An entry is registered exactly as long as some task waits for it or is inside, and counts them all. */
  lemma RegisteredWhileUsed(run: seq<State>, i: nat, e: EntryId)
    requires IsRun(run) && i < |run| && e in run[i].entries
    ensures var s := run[i];
            s.entries[e].users == |UsersOf(s, e)|
            && (UsersOf(s, e) != {} <==> s.entries[e].key in s.registry && s.registry[s.entries[e].key] == e)
  {
    RunInv(run, i);
    assert EntryOk(run[i], e);
    if UsersOf(run[i], e) != {} {
      var t :| t in UsersOf(run[i], e);
      UserIsCounted(run[i], t, e);
    }
  }

  /** Somebody still waits for an entry whose lock is taken but held by nobody. */
  ghost predicate Stranded(s: State, e: EntryId) {
    e in s.entries && s.entries[e].locked && UsersOf(s, e) != {} && forall t: Task :: !Holds(s, t, e)
  }

  lemma StrandedStays(s: State, a: Action, e: EntryId)
    requires Inv(s) && Enabled(s, a) && Stranded(s, e)
    ensures Stranded(Do(s, a), e) || UsersOf(Do(s, a), e) == {}
  {
    var n := Do(s, a);
    forall t: Task ensures !Holds(n, t, e) {
      assert !Holds(s, t, e);
    }
    assert a.Release? ==> Holds(s, a.task, s.tasks[a.task].entry);
  }

  /** A lock gets stranded exactly by cancelling a waiter that was just granted it while others wait. */
  lemma StrandedBy(s: State, a: Action, e: EntryId)
    requires Inv(s) && Enabled(s, a) && !Stranded(s, e) && e in s.entries
    requires s.entries[e].locked ==> exists t: Task :: Holds(s, t, e)
    ensures Stranded(Do(s, a), e) <==>
            a.Cancel? && s.tasks[a.task] == Waiting(e, true) && s.entries[e].users > 1
  {
    var n := Do(s, a);
    assert EntryOk(s, e);
    if a.Cancel? && s.tasks[a.task] == Waiting(e, true) {
      var t := a.task;
      assert Holds(s, t, e);
      assert t in UsersOf(s, e) && UsersOf(n, e) == UsersOf(s, e) - {t};
      assert |UsersOf(n, e)| == s.entries[e].users - 1;
      forall u: Task ensures !Holds(n, u, e) {
        assert Holds(n, u, e) ==> Holds(s, u, e);
      }
    } else if s.entries[e].locked {
      var t: Task :| Holds(s, t, e);
      if a.Release? && a.task == t {
        assert !n.entries[e].locked;
      } else {
        assert Holds(n, t, e);
      }
    } else if n.entries[e].locked {
      assert Holds(n, a.task, e);
    }
  }

  /** It does happen: the first of two waiters is cancelled just after it was granted the lock. */
  lemma WaiterStranded() returns (run: seq<State>)
    ensures IsRun(run) && Stranded(run[|run| - 1], 0)
    ensures 1 in run[|run| - 1].tasks && run[|run| - 1].tasks[1] == Waiting(0, false)
  {
    var first := Do(INITIAL, Request(0, "key", 0));
    var second := Do(first, Request(1, "key", 1));
    var granted := Do(second, Grant(0));
    var cancelled := Do(granted, Cancel(0));
    run := [INITIAL, first, second, granted, cancelled];
    assert Step(INITIAL, first) && Step(first, second) && Step(second, granted) && Step(granted, cancelled);
    assert 1 in UsersOf(cancelled, 0);
  }
}
