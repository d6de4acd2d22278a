/** `MemoryRepository` of app/storage/repositories.py: statements on the tables inside transactions that
    roll back on any error. */
module MemoryRepositories {
  import opened Options
  import opened MemoryTables

  class MemoryRepository {
    var db: Database

    ghost predicate Valid()
      reads this
    {
      Schema(db)
    }

    constructor ()
      ensures Valid() && db == EMPTY
    {
      db := EMPTY;
    }

    // ----- Statements -----

    /** INSERT or UPDATE of one memory row: refused when it breaks a declared constraint. */
    method WriteRow(id: string, row: Row) returns (ok: bool)
      modifies this
      ensures ok <==> Checked(row) && forall i :: i in old(db).rows && i != id ==> Compatible(row, old(db).rows[i])
      ensures db == if ok then old(db).(rows := old(db).rows[id := row]) else old(db)
    {
      var conflict := exists i :: i in db.rows && i != id && !Compatible(row, db.rows[i]);
      ok := Checked(row) && !conflict;
      if ok {
        db := db.(rows := db.rows[id := row]);
      }
    }

    /** INSERT with ON CONFLICT(user_id, profile_key) DO UPDATE; another key's profile of the same memory refuses it. */
    method WriteProfile(key: Key, id: string, value: string, createdAt: int, updatedAt: int) returns (ok: bool)
      modifies this
      ensures ok <==> !Blank(value) && id in old(db).rows
                      && forall k :: k in old(db).profiles && k != key ==> old(db).profiles[k].memoryId != id
      ensures var created := if key in old(db).profiles then old(db).profiles[key].createdAt else createdAt;
              db == if ok then old(db).(profiles := old(db).profiles[key := Profile(id, value, created, updatedAt)])
                    else old(db)
    {
      var taken := exists k :: k in db.profiles && k != key && db.profiles[k].memoryId == id;
      ok := !Blank(value) && id in db.rows && !taken;
      if ok {
        var created := if key in db.profiles then db.profiles[key].createdAt else createdAt;
        db := db.(profiles := db.profiles[key := Profile(id, value, created, updatedAt)]);
      }
    }

    // ----- upsert -----

    method FindExact(a: Approved) returns (id: Option<string>)
      requires Valid()
      ensures id.Some? <==> HasExact(db, a)
      ensures id.Some? ==> id.value == TargetId(db, a) && id.value in db.rows && SameValue(db.rows[id.value], a)
    {
      id := None;
      var todo := db.rows.Keys;
      while todo != {}
        invariant todo <= db.rows.Keys
        invariant id.None? && forall i :: i in db.rows && i !in todo ==> !SameValue(db.rows[i], a)
        decreases |todo|
      {
        var i :| i in todo;
        if SameValue(db.rows[i], a) {
          id := Some(i);
          ExactIsTarget(db, a, i);
          return;
        }
        todo := todo - {i};
      }
    }

    /** Stores a memory: the key's other value is superseded, the same value is refreshed.  A refusal changes nothing. */
    method Upsert(a: Approved) returns (result: Result<Row>)
      requires Valid()
      modifies this
      ensures Valid() && db == AfterUpsert(old(db), a)
      ensures result == match UpsertError(old(db), a)
                        case Some(error) => Failure(error)
                        case None => Success(UpsertedRow(old(db), a))
    {
      UpsertKeepsSchema(db, a);
      var snapshot := db;
      result := UpsertStatements(a);
      if result.Failure? {
        db := snapshot;
      }
    }

    method UpsertStatements(a: Approved) returns (result: Result<Row>)
      requires Valid()
      modifies this
      ensures result == match UpsertError(old(db), a)
                        case Some(error) => Failure(error)
                        case None => Success(UpsertedRow(old(db), a))
      ensures result.Success? ==> db == AfterUpsert(old(db), a)
    {
      hide Schema, RowsOk, ProfilesOk, SourcesOk, Superseded, Inserted, Refreshed, Checked, Compatible, HasExact;
      ghost var before := db;
      var exact := FindExact(a);
      db := db.(rows := Superseded(db.rows, a));
      SupersededRows(before.rows, a);
      var id, row := a.memoryId, Inserted(a);
      if exact.None? {
        if id in db.rows {
          return Failure(IntegrityError);
        }
      } else {
        id := exact.value;
        if db.rows[id].memoryType != a.memoryType {
          return Failure(TypeChanged);
        }
        row := Refreshed(db.rows[id], a);
      }
      var ok := WriteRow(id, row);
      RowConstraints(before, a);
      if !ok {
        return Failure(IntegrityError);
      }
      db := db.(sources := WithSource(db.sources, id, a));
      if a.memoryType == UserProfile {
        OneProfilePerMemory(before, a);
        TargetRow(before, a);
        ok := WriteProfile(a.key, id, a.content, row.createdAt, a.createdAt);
        if !ok {
          return Failure(IntegrityError);
        }
      }
      result := Success(row);
    }

    // ----- update_content -----

    /** Edits a memory of the user.  Nothing is found, refused, or the new content reaches the profile too. */
    method UpdateContent(e: Edit) returns (result: Result<Option<Row>>)
      requires Valid()
      modifies this
      ensures Valid() && db == AfterEdit(old(db), e)
      ensures result == if !Finds(old(db), e.memoryId, e.user) then Success(None)
                        else match EditError(old(db), e)
                             case Some(error) => Failure(error)
                             case None => Success(Some(EditedRow(old(db).rows[e.memoryId], e)))
    {
      EditKeepsSchema(db, e);
      var snapshot := db;
      result := EditStatements(e);
      if result.Failure? {
        db := snapshot;
      }
    }

    method EditStatements(e: Edit) returns (result: Result<Option<Row>>)
      requires Valid()
      modifies this
      ensures result == if !Finds(old(db), e.memoryId, e.user) then Success(None)
                        else match EditError(old(db), e)
                             case Some(error) => Failure(error)
                             case None => Success(Some(EditedRow(old(db).rows[e.memoryId], e)))
      ensures result.Success? ==> db == AfterEdit(old(db), e)
    {
      hide Schema, RowsOk, ProfilesOk, SourcesOk, Checked, Compatible, Duplicates;
      if e.memoryId !in db.rows || db.rows[e.memoryId].key.user != e.user {
        return Success(None);
      }
      if e.sensitivity == Credential {
        return Failure(CredentialRefused);
      }
      var row := EditedRow(db.rows[e.memoryId], e);
      EditConstraints(db, e);
      var ok := WriteRow(e.memoryId, row);
      if !ok {
        return Failure(DuplicateEdit);
      }
      db := db.(profiles := EditedProfiles(db.profiles, e));
      if EditSource(e) in db.sources {
        return Failure(IntegrityError);
      }
      db := db.(sources := db.sources[EditSource(e) := SourceInfo(Manual, e.updatedAt)]);
      result := Success(Some(row));
    }

    // ----- delete and clear -----

    method Delete(id: string, user: Option<string>) returns (deleted: bool)
      requires Valid()
      modifies this
      ensures Valid() && db == AfterDelete(old(db), id, user)
      ensures deleted <==> id in old(db).rows && id !in db.rows
    {
      deleted := id in db.rows && (user.None? || db.rows[id].key.user == user.value);
      WithoutKeepsSchema(db, {id});
      if deleted {
        db := Without(db, {id});
      }
    }

    method Clear(user: string) returns (deleted: nat)
      requires Valid()
      modifies this
      ensures Valid() && db == AfterClear(old(db), user) && deleted == |OwnedBy(old(db), user)|
      ensures OwnedBy(db, user) == {}
    {
      WithoutKeepsSchema(db, OwnedBy(db, user));
      deleted := |OwnedBy(db, user)|;
      db := Without(db, OwnedBy(db, user));
    }
  }

  lemma ExactIsTarget(db: Database, a: Approved, id: string)
    requires Schema(db) && id in db.rows && SameValue(db.rows[id], a)
    ensures id == TargetId(db, a)
  {
    var target := TargetId(db, a);
    assert target != id ==> Compatible(db.rows[target], db.rows[id]);
  }

  /** After the superseding statement every row keeps its key, value, type and id. */
  lemma SupersededRows(rows: map<string, Row>, a: Approved)
    ensures Superseded(rows, a).Keys == rows.Keys
    ensures forall id :: id in rows ==>
      && Superseded(rows, a)[id].memoryType == rows[id].memoryType
      && (SameValue(rows[id], a) ==> Superseded(rows, a)[id] == rows[id])
  {
  }

  /** Only the checks of the row itself can refuse the write: the unique constraints cannot. */
  lemma RowConstraints(db: Database, a: Approved)
    requires Schema(db) && (HasExact(db, a) || a.memoryId !in db.rows)
    ensures forall i :: i in db.rows && i != TargetId(db, a) ==> Compatible(UpsertedRow(db, a), Superseded(db.rows, a)[i])
  {
    forall i | i in db.rows && i != TargetId(db, a)
      ensures Compatible(UpsertedRow(db, a), Superseded(db.rows, a)[i])
    {
      if HasExact(db, a) {
        assert Compatible(db.rows[TargetId(db, a)], db.rows[i]);
      } else {
        assert !SameValue(db.rows[i], a);
      }
    }
  }

  /** No other key's profile belongs to the written memory. */
  lemma OneProfilePerMemory(db: Database, a: Approved)
    requires Schema(db) && (HasExact(db, a) || a.memoryId !in db.rows)
    ensures forall k :: k in db.profiles && k != a.key ==> db.profiles[k].memoryId != TargetId(db, a)
  {
  }

  lemma EditConstraints(db: Database, e: Edit)
    requires Schema(db) && e.memoryId in db.rows && e.sensitivity != Credential
    ensures var row := EditedRow(db.rows[e.memoryId], e);
            (Checked(row) && forall i :: i in db.rows && i != e.memoryId ==> Compatible(row, db.rows[i]))
            <==> !(Blank(e.content) || e.normalized == "" || Duplicates(db, e))
  {
    var row := EditedRow(db.rows[e.memoryId], e);
    forall i | i in db.rows && i != e.memoryId
      ensures Compatible(row, db.rows[i]) <==> !(db.rows[i].key == row.key && db.rows[i].normalized == e.normalized)
    {
      assert Compatible(db.rows[e.memoryId], db.rows[i]);
    }
  }
}
