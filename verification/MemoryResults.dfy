/** What every sequence of memory operations amounts to: a last-write-wins map, and profiles that follow it. */
module MemoryResults {
  import opened Options
  import opened MemoryTables

  // ----- Last write wins -----

  /** What an operation means for the current value of a key. */
  datatype Write = Put(key: Key, content: string) | Erase(key: Key) | EraseUser(user: string) | Nothing

  ghost function Meaning(db: Database, op: Op): Write {
    match op
    case Upsert(a) => if UpsertError(db, a).Some? then Nothing else Put(a.key, a.content)
    case UpdateContent(e) =>
      if Finds(db, e.memoryId, e.user) && EditError(db, e).None? && db.rows[e.memoryId].active
      then Put(db.rows[e.memoryId].key, e.content) else Nothing
    case Delete(id, owner) =>
      if id in db.rows && (owner.None? || db.rows[id].key.user == owner.value) && db.rows[id].active
      then Erase(db.rows[id].key) else Nothing
    case Clear(user) => EraseUser(user)
  }

  function Wrote(current: map<Key, string>, w: Write): map<Key, string> {
    match w
    case Put(key, content) => current[key := content]
    case Erase(key) => current - {key}
    case EraseUser(user) => map k | k in current && k.user != user :: current[k]
    case Nothing => current
  }

  ghost predicate IsActive(db: Database, k: Key, id: string) {
    id in db.rows && db.rows[id].active && db.rows[id].key == k
  }

  /** `current` is what the active rows say: each key has one, and its content is the key's value. */
  ghost predicate Represents(db: Database, current: map<Key, string>) {
    && (forall k, id :: IsActive(db, k, id) ==> k in current && current[k] == db.rows[id].content)
    && (forall k :: k in current ==> exists id :: IsActive(db, k, id))
  }

  /** There is at most one active row for a key. */
  lemma OneActive(db: Database, k: Key, i: string, j: string)
    requires Schema(db) && IsActive(db, k, i) && IsActive(db, k, j)
    ensures i == j
  {
    assert i != j ==> Compatible(db.rows[i], db.rows[j]);
  }

  lemma ActiveAfterUpsert(db: Database, a: Approved, k: Key, id: string)
    requires Schema(db) && UpsertError(db, a).None?
    ensures IsActive(AfterUpsert(db, a), k, id) <==>
            if k == a.key then id == TargetId(db, a) else IsActive(db, k, id)
    ensures k != a.key && IsActive(db, k, id) ==> AfterUpsert(db, a).rows[id] == db.rows[id]
  {
    TargetRow(db, a);
    if k == a.key && id != TargetId(db, a) && id in db.rows {
      UpsertedFits(db, a, id);
    }
  }

  lemma UpsertRefines(db: Database, a: Approved, current: map<Key, string>)
    requires Schema(db) && Represents(db, current) && UpsertError(db, a).None?
    ensures Represents(AfterUpsert(db, a), current[a.key := a.content])
  {
    var n, after := AfterUpsert(db, a), current[a.key := a.content];
    forall k, id ensures IsActive(n, k, id) <==> if k == a.key then id == TargetId(db, a) else IsActive(db, k, id) {
      ActiveAfterUpsert(db, a, k, id);
    }
    forall k, id | IsActive(n, k, id)
      ensures k in after && after[k] == n.rows[id].content
    {
      ActiveAfterUpsert(db, a, k, id);
    }
    forall k | k in after ensures exists id :: IsActive(n, k, id) {
      ActiveAfterUpsert(db, a, a.key, TargetId(db, a));
      if k != a.key {
        var id :| IsActive(db, k, id);
        ActiveAfterUpsert(db, a, k, id);
      }
    }
  }

  lemma EditRefines(db: Database, e: Edit, current: map<Key, string>)
    requires Schema(db) && Represents(db, current)
    ensures Represents(AfterEdit(db, e), Wrote(current, Meaning(db, UpdateContent(e))))
  {
    var n := AfterEdit(db, e);
    if Finds(db, e.memoryId, e.user) && EditError(db, e).None? {
      var after := Wrote(current, Meaning(db, UpdateContent(e)));
      forall k, id ensures IsActive(n, k, id) <==> IsActive(db, k, id) {
      }
      forall k, id | IsActive(n, k, id) ensures k in after && after[k] == n.rows[id].content {
        if k == db.rows[e.memoryId].key && db.rows[e.memoryId].active {
          OneActive(db, k, id, e.memoryId);
        }
      }
      forall k | k in after ensures exists id :: IsActive(n, k, id) {
        if k in current {
          var id :| IsActive(db, k, id);
          assert IsActive(n, k, id);
        } else {
          assert IsActive(n, k, e.memoryId);
        }
      }
    }
  }

  lemma WithoutActive(db: Database, gone: set<string>, k: Key, id: string)
    ensures IsActive(Without(db, gone), k, id) <==> IsActive(db, k, id) && id !in gone
    ensures IsActive(Without(db, gone), k, id) ==> Without(db, gone).rows[id] == db.rows[id]
  {
  }

  lemma RemovalRefines(db: Database, gone: set<string>, current: map<Key, string>, after: map<Key, string>)
    requires Schema(db) && Represents(db, current)
    requires forall k, id :: IsActive(db, k, id) ==> (k in after <==> id !in gone)
    requires forall k :: k in after ==> k in current && after[k] == current[k]
    ensures Represents(Without(db, gone), after)
  {
    var n := Without(db, gone);
    forall k, id ensures IsActive(n, k, id) <==> IsActive(db, k, id) && id !in gone {
      WithoutActive(db, gone, k, id);
    }
    forall k | k in after ensures exists id :: IsActive(n, k, id) {
      var id :| IsActive(db, k, id);
      assert IsActive(n, k, id);
    }
  }

  lemma DeleteRefines(db: Database, id: string, owner: Option<string>, current: map<Key, string>)
    requires Schema(db) && Represents(db, current)
    ensures Represents(AfterDelete(db, id, owner), Wrote(current, Meaning(db, Delete(id, owner))))
  {
    if id in db.rows && (owner.None? || db.rows[id].key.user == owner.value) {
      var after := Wrote(current, Meaning(db, Delete(id, owner)));
      forall k, j | IsActive(db, k, j) ensures k in after <==> j !in {id} {
        if db.rows[id].active && k == db.rows[id].key {
          OneActive(db, k, j, id);
        }
      }
      RemovalRefines(db, {id}, current, after);
    }
  }

  /** One operation writes to the map what it means. */
  lemma StepRefines(db: Database, op: Op, current: map<Key, string>)
    requires Schema(db) && Represents(db, current)
    ensures Represents(Apply(db, op), Wrote(current, Meaning(db, op)))
  {
    match op
    case Upsert(a) => if UpsertError(db, a).None? { UpsertRefines(db, a, current); }
    case UpdateContent(e) => EditRefines(db, e, current);
    case Delete(id, owner) => DeleteRefines(db, id, owner, current);
    case Clear(user) => RemovalRefines(db, OwnedBy(db, user), current, Wrote(current, EraseUser(user)));
  }

  /** The map that the operations write one after the other. */
  ghost function LastWrites(ops: seq<Op>): map<Key, string> {
    if ops == [] then map[]
    else Wrote(LastWrites(ops[..|ops| - 1]), Meaning(Run(ops[..|ops| - 1]), ops[|ops| - 1]))
  }

  /** After any operations the active rows are exactly the last write of every key. */
  lemma {:induction false} LastWriteWins(ops: seq<Op>)
    ensures Represents(Run(ops), LastWrites(ops))
  {
    if ops != [] {
      var before := ops[..|ops| - 1];
      LastWriteWins(before);
      RunKeepsSchema(before);
      StepRefines(Run(before), ops[|ops| - 1], LastWrites(before));
    }
  }

  // ----- Profiles -----

  /** The profile of `k` is the value of its active memory, and there is one exactly for profile memories. */
  ghost predicate Coherent(db: Database, k: Key) {
    if k in db.profiles then
      var p := db.profiles[k];
      IsActive(db, k, p.memoryId) && db.rows[p.memoryId].memoryType == UserProfile
      && p.value == db.rows[p.memoryId].content
    else forall id :: IsActive(db, k, id) ==> db.rows[id].memoryType != UserProfile
  }

  /** A successful upsert leaves its key coherent exactly when it writes a profile memory or the key has no profile. */
  lemma UpsertCoherent(db: Database, a: Approved)
    requires Schema(db) && UpsertError(db, a).None?
    ensures Coherent(AfterUpsert(db, a), a.key) <==> a.memoryType == UserProfile || a.key !in db.profiles
  {
    var n, id := AfterUpsert(db, a), TargetId(db, a);
    TargetRow(db, a);
    ActiveAfterUpsert(db, a, a.key, id);
    assert n.rows[id].memoryType == a.memoryType && n.rows[id].content == a.content;
    if a.memoryType != UserProfile && a.key !in db.profiles {
      forall j | IsActive(n, a.key, j) ensures n.rows[j].memoryType != UserProfile {
        ActiveAfterUpsert(db, a, a.key, j);
      }
    }
    if a.memoryType != UserProfile && a.key in db.profiles {
      ActiveAfterUpsert(db, a, a.key, db.profiles[a.key].memoryId);
    }
  }

  lemma UpsertElsewhere(db: Database, a: Approved, k: Key)
    requires Schema(db) && k != a.key && Coherent(db, k)
    ensures Coherent(AfterUpsert(db, a), k)
  {
    if UpsertError(db, a).None? {
      var n := AfterUpsert(db, a);
      if k in db.profiles {
        ActiveAfterUpsert(db, a, k, db.profiles[k].memoryId);
      } else {
        forall id | IsActive(n, k, id) ensures n.rows[id].memoryType != UserProfile {
          ActiveAfterUpsert(db, a, k, id);
        }
      }
    }
  }

  lemma EditCoherent(db: Database, e: Edit, k: Key)
    requires Schema(db) && Coherent(db, k)
    ensures Coherent(AfterEdit(db, e), k)
    ensures k in AfterEdit(db, e).profiles <==> k in db.profiles
  {
    var n := AfterEdit(db, e);
    if k !in db.profiles {
      forall id | IsActive(n, k, id) ensures n.rows[id].memoryType != UserProfile {
        assert IsActive(db, k, id);
      }
    }
  }

  lemma WithoutCoherent(db: Database, gone: set<string>, k: Key)
    requires Schema(db) && Coherent(db, k)
    ensures Coherent(Without(db, gone), k)
    ensures k in Without(db, gone).profiles ==> k in db.profiles
  {
    var n := Without(db, gone);
    if k in n.profiles {
      WithoutActive(db, gone, k, n.profiles[k].memoryId);
    } else {
      forall id | IsActive(n, k, id) ensures n.rows[id].memoryType != UserProfile {
        WithoutActive(db, gone, k, id);
        if k in db.profiles {
          OneActive(db, k, id, db.profiles[k].memoryId);
        }
      }
    }
  }

  /** All memories written for `k` have one type. */
  ghost predicate OneType(ops: seq<Op>, k: Key, memoryType: MemoryType) {
    forall i :: 0 <= i < |ops| && ops[i].Upsert? && ops[i].approved.key == k ==> ops[i].approved.memoryType == memoryType
  }

  lemma StepCoherent(db: Database, op: Op, k: Key, memoryType: MemoryType)
    requires Schema(db) && Coherent(db, k) && (memoryType != UserProfile ==> k !in db.profiles)
    requires op.Upsert? && op.approved.key == k ==> op.approved.memoryType == memoryType
    ensures Coherent(Apply(db, op), k) && (memoryType != UserProfile ==> k !in Apply(db, op).profiles)
  {
    match op
    case Upsert(a) =>
      if a.key != k {
        UpsertElsewhere(db, a, k);
      } else if UpsertError(db, a).None? {
        UpsertCoherent(db, a);
      }
    case UpdateContent(e) => EditCoherent(db, e, k);
    case Delete(id, owner) => WithoutCoherent(db, {id}, k);
    case Clear(user) => WithoutCoherent(db, OwnedBy(db, user), k);
  }

  /** As long as a key keeps one memory type, its profile follows its active memory. */
  lemma {:induction false} ProfileFollows(ops: seq<Op>, k: Key, memoryType: MemoryType)
    requires OneType(ops, k, memoryType)
    ensures Coherent(Run(ops), k) && (memoryType != UserProfile ==> k !in Run(ops).profiles)
  {
    if ops != [] {
      var before, last := ops[..|ops| - 1], ops[|ops| - 1];
      assert forall i :: 0 <= i < |before| ==> before[i] == ops[i];
      ProfileFollows(before, k, memoryType);
      RunKeepsSchema(before);
      StepCoherent(Run(before), last, k, memoryType);
    }
  }

  const CITY: Key := Key("user", "city")

  function Says(id: string, memoryType: MemoryType, city: string): Approved {
    Approved(id, CITY, memoryType, city, city, 0.5, 0.5, Normal, Source(Dialogue, id, city), 0)
  }

  /** A key that changes its type keeps the profile of its superseded memory. */
  lemma ProfileGoesStale()
    ensures var db := Run([Upsert(Says("m1", UserProfile, "Oslo")), Upsert(Says("m2", Fact, "Rome"))]);
            && IsActive(db, CITY, "m2") && db.rows["m2"].content == "Rome"
            && CITY in db.profiles && db.profiles[CITY].value == "Oslo" && !Coherent(db, CITY)
  {
    var first, second := Says("m1", UserProfile, "Oslo"), Says("m2", Fact, "Rome");
    var ops := [Upsert(first), Upsert(second)];
    assert ops[..1] == [Upsert(first)] && [Upsert(first)][..0] == [];
    assert "Oslo"[0] != ' ' && "Rome"[0] != ' ';
    assert UpsertError(EMPTY, first).None?;
    var middle := AfterUpsert(EMPTY, first);
    assert Run(ops[..1]) == middle;
    assert middle.rows == map["m1" := Inserted(first)];
    assert Run(ops) == Apply(middle, Upsert(second));
    assert "Oslo"[0] != "Rome"[0];
    assert UpsertError(middle, second).None?;
    RunKeepsSchema(ops[..1]);
    ActiveAfterUpsert(middle, second, CITY, "m2");
    UpsertCoherent(middle, second);
  }
}
