/** The memory tables of app/storage: their declared constraints and what each operation makes of them. */
module MemoryTables {
  import opened Options

  datatype MemoryType = UserProfile | Fact | Episode | EmotionMemory | Relationship
  datatype Sensitivity = Normal | Health | Address | OtherSensitive | Credential
  datatype SourceKind = Dialogue | Manual

  /** A user and a canonical key. */
  datatype Key = Key(user: string, name: string)

  datatype Source = Source(kind: SourceKind, messageId: string, excerpt: string)

  datatype Row = Row(
    key: Key, memoryType: MemoryType, content: string, normalized: string, importance: real, confidence: real,
    sensitivity: Sensitivity, active: bool, source: Source, createdAt: int, updatedAt: int)

  datatype Profile = Profile(memoryId: string, value: string, createdAt: int, updatedAt: int)

  /** The unique columns of a source row. */
  datatype SourceKey = SourceKey(memoryId: string, messageId: string, excerpt: string)
  datatype SourceInfo = SourceInfo(kind: SourceKind, observedAt: int)

  datatype Database = Database(rows: map<string, Row>, profiles: map<Key, Profile>, sources: map<SourceKey, SourceInfo>)

  const EMPTY: Database := Database(map[], map[], map[])

  datatype Approved = Approved(
    memoryId: string, key: Key, memoryType: MemoryType, content: string, normalized: string,
    importance: real, confidence: real, sensitivity: Sensitivity, source: Source, createdAt: int)

  datatype Error = TypeChanged | DuplicateEdit | IntegrityError | CredentialRefused

  datatype Result<T> = Success(value: T) | Failure(error: Error)

  function Max(x: real, y: real): real {
    if x < y then y else x
  }

  /** What `trim` of the database leaves empty. */
  predicate Blank(text: string) {
    forall i :: 0 <= i < |text| ==> text[i] == ' '
  }

  // ----- Declared constraints -----

  predicate Checked(row: Row) {
    && !Blank(row.content) && row.normalized != "" && row.sensitivity != Credential
    && 0.0 <= row.importance <= 1.0 && 0.0 <= row.confidence <= 1.0
  }

  /** The two unique constraints, between rows of different ids. */
  predicate Compatible(a: Row, b: Row) {
    a.key == b.key ==> a.normalized != b.normalized && !(a.active && b.active)
  }

  ghost predicate RowsOk(rows: map<string, Row>) {
    && (forall id :: id in rows ==> Checked(rows[id]))
    && (forall i, j :: i in rows && j in rows && i != j ==> Compatible(rows[i], rows[j]))
  }

  /** References to memories exist; a profile is that of a memory with its own key. */
  ghost predicate ProfilesOk(rows: map<string, Row>, profiles: map<Key, Profile>) {
    forall k :: k in profiles ==>
      profiles[k].memoryId in rows && rows[profiles[k].memoryId].key == k && !Blank(profiles[k].value)
  }

  ghost predicate SourcesOk(rows: map<string, Row>, sources: map<SourceKey, SourceInfo>) {
    forall s :: s in sources ==> s.memoryId in rows
  }

  ghost predicate Schema(db: Database) {
    RowsOk(db.rows) && ProfilesOk(db.rows, db.profiles) && SourcesOk(db.rows, db.sources)
  }

  // ----- upsert -----

  predicate SameValue(row: Row, a: Approved) {
    row.key == a.key && row.normalized == a.normalized
  }

  ghost predicate HasExact(db: Database, a: Approved) {
    exists id :: id in db.rows && SameValue(db.rows[id], a)
  }

  /** The row an upsert writes: that of the same value, or a new one. */
  ghost function TargetId(db: Database, a: Approved): string {
    if HasExact(db, a) then (var id :| id in db.rows && SameValue(db.rows[id], a); id) else a.memoryId
  }

  function Superseded(rows: map<string, Row>, a: Approved): map<string, Row> {
    map id | id in rows ::
      if rows[id].key == a.key && rows[id].active && rows[id].normalized != a.normalized
      then rows[id].(active := false, updatedAt := a.createdAt) else rows[id]
  }

  function Inserted(a: Approved): Row {
    Row(a.key, a.memoryType, a.content, a.normalized, a.importance, a.confidence, a.sensitivity, true, a.source,
        a.createdAt, a.createdAt)
  }

  /** The same value seen again: scores never fall, identity and creation time stay. */
  function Refreshed(row: Row, a: Approved): Row {
    row.(content := a.content, importance := Max(row.importance, a.importance),
         confidence := Max(row.confidence, a.confidence), sensitivity := a.sensitivity, active := true,
         source := a.source, updatedAt := a.createdAt)
  }

  ghost function UpsertedRow(db: Database, a: Approved): Row {
    if HasExact(db, a) then Refreshed(db.rows[TargetId(db, a)], a) else Inserted(a)
  }

  /** Why an upsert is refused. */
  ghost function UpsertError(db: Database, a: Approved): Option<Error> {
    if HasExact(db, a) && db.rows[TargetId(db, a)].memoryType != a.memoryType then Some(TypeChanged)
    else if !Checked(UpsertedRow(db, a)) || (!HasExact(db, a) && a.memoryId in db.rows) then Some(IntegrityError)
    else None
  }

  function WithSource(sources: map<SourceKey, SourceInfo>, id: string, a: Approved): map<SourceKey, SourceInfo> {
    var key := SourceKey(id, a.source.messageId, a.source.excerpt);
    if key in sources then sources else sources[key := SourceInfo(a.source.kind, a.createdAt)]
  }

  function WithProfile(profiles: map<Key, Profile>, id: string, createdAt: int, a: Approved): map<Key, Profile> {
    if a.memoryType != UserProfile then profiles
    else
      var created := if a.key in profiles then profiles[a.key].createdAt else createdAt;
      profiles[a.key := Profile(id, a.content, created, a.createdAt)]
  }

  ghost function AfterUpsert(db: Database, a: Approved): Database {
    if UpsertError(db, a).Some? then db
    else
      var id, row := TargetId(db, a), UpsertedRow(db, a);
      Database(Superseded(db.rows, a)[id := row], WithProfile(db.profiles, id, row.createdAt, a),
               WithSource(db.sources, id, a))
  }

  // ----- update_content -----

  datatype Edit = Edit(
    memoryId: string, user: string, content: string, normalized: string, sensitivity: Sensitivity, messageId: string,
    updatedAt: int)

  predicate Finds(db: Database, id: string, user: string) {
    id in db.rows && db.rows[id].key.user == user
  }

  function EditedRow(row: Row, e: Edit): Row {
    row.(content := e.content, normalized := e.normalized, confidence := 1.0, sensitivity := e.sensitivity,
         source := Source(Manual, e.messageId, e.content), updatedAt := e.updatedAt)
  }

  ghost predicate Duplicates(db: Database, e: Edit)
    requires e.memoryId in db.rows
  {
    exists id :: id in db.rows && id != e.memoryId
                 && db.rows[id].key == db.rows[e.memoryId].key && db.rows[id].normalized == e.normalized
  }

  function EditSource(e: Edit): SourceKey {
    SourceKey(e.memoryId, e.messageId, e.content)
  }

  /** Why an edit of an existing memory is refused. */
  ghost function EditError(db: Database, e: Edit): Option<Error>
    requires e.memoryId in db.rows
  {
    if e.sensitivity == Credential then Some(CredentialRefused)
    else if Blank(e.content) || e.normalized == "" || Duplicates(db, e) then Some(DuplicateEdit)
    else if EditSource(e) in db.sources then Some(IntegrityError)
    else None
  }

  function EditedProfiles(profiles: map<Key, Profile>, e: Edit): map<Key, Profile> {
    map k | k in profiles ::
      if profiles[k].memoryId == e.memoryId then profiles[k].(value := e.content, updatedAt := e.updatedAt) else profiles[k]
  }

  ghost function AfterEdit(db: Database, e: Edit): Database {
    if !Finds(db, e.memoryId, e.user) || EditError(db, e).Some? then db
    else Database(db.rows[e.memoryId := EditedRow(db.rows[e.memoryId], e)], EditedProfiles(db.profiles, e),
                  db.sources[EditSource(e) := SourceInfo(Manual, e.updatedAt)])
  }

  // ----- delete and clear -----

  /** Deleting memories deletes their profiles and sources. */
  function Without(db: Database, gone: set<string>): Database {
    Database(db.rows - gone,
             map k | k in db.profiles && db.profiles[k].memoryId !in gone :: db.profiles[k],
             map s | s in db.sources && s.memoryId !in gone :: db.sources[s])
  }

  function AfterDelete(db: Database, id: string, user: Option<string>): Database {
    if id in db.rows && (user.None? || db.rows[id].key.user == user.value) then Without(db, {id}) else db
  }

  function OwnedBy(db: Database, user: string): set<string> {
    set id | id in db.rows && db.rows[id].key.user == user
  }

  function AfterClear(db: Database, user: string): Database {
    Without(db, OwnedBy(db, user))
  }

  // ----- Sequences of operations -----

  datatype Op =
    | Upsert(approved: Approved) | UpdateContent(edit: Edit) | Delete(id: string, owner: Option<string>) | Clear(user: string)

  ghost function Apply(db: Database, op: Op): Database {
    match op
    case Upsert(a) => AfterUpsert(db, a)
    case UpdateContent(e) => AfterEdit(db, e)
    case Delete(id, owner) => AfterDelete(db, id, owner)
    case Clear(user) => AfterClear(db, user)
  }

  ghost function Run(ops: seq<Op>): Database {
    if ops == [] then EMPTY else Apply(Run(ops[..|ops| - 1]), ops[|ops| - 1])
  }

  // ----- The constraints are kept -----

  lemma SupersededOk(rows: map<string, Row>, a: Approved)
    requires RowsOk(rows)
    ensures RowsOk(Superseded(rows, a))
  {
  }

  lemma UpsertKeepsRows(db: Database, a: Approved)
    requires Schema(db) && UpsertError(db, a).None?
    ensures RowsOk(AfterUpsert(db, a).rows)
  {
    SupersededOk(db.rows, a);
    var rows, id := AfterUpsert(db, a).rows, TargetId(db, a);
    forall i, j | i in rows && j in rows && i != j ensures Compatible(rows[i], rows[j]) {
      if i == id {
        UpsertedFits(db, a, j);
      } else if j == id {
        UpsertedFits(db, a, i);
      } else {
        assert Compatible(Superseded(db.rows, a)[i], Superseded(db.rows, a)[j]);
      }
    }
  }

  /** The written row fits every other row once the old value is superseded. */
  lemma UpsertedFits(db: Database, a: Approved, j: string)
    requires Schema(db) && UpsertError(db, a).None? && j in db.rows && j != TargetId(db, a)
    ensures Compatible(UpsertedRow(db, a), Superseded(db.rows, a)[j])
    ensures Compatible(Superseded(db.rows, a)[j], UpsertedRow(db, a))
  {
    if HasExact(db, a) {
      assert Compatible(db.rows[TargetId(db, a)], db.rows[j]);
    } else {
      assert !SameValue(db.rows[j], a);
    }
  }

  lemma TargetRow(db: Database, a: Approved)
    requires UpsertError(db, a).None?
    ensures var id := TargetId(db, a);
            if id in db.rows then HasExact(db, a) && SameValue(db.rows[id], a) else !HasExact(db, a)
    ensures UpsertedRow(db, a).key == a.key && !Blank(a.content)
  {
  }

  lemma ProfilesStayOk(
    rows: map<string, Row>, more: map<string, Row>, profiles: map<Key, Profile>, id: string, created: int, a: Approved)
    requires ProfilesOk(rows, profiles)
    requires forall i :: i in rows ==> i in more && more[i].key == rows[i].key
    requires id in more && more[id].key == a.key && !Blank(a.content)
    ensures ProfilesOk(more, WithProfile(profiles, id, created, a))
  {
  }

  lemma SourcesStayOk(
    rows: map<string, Row>, more: map<string, Row>, sources: map<SourceKey, SourceInfo>, id: string, a: Approved)
    requires SourcesOk(rows, sources) && rows.Keys <= more.Keys && id in more
    ensures SourcesOk(more, WithSource(sources, id, a))
  {
  }

  lemma UpsertedTables(db: Database, a: Approved)
    requires UpsertError(db, a).None? && UpsertedRow(db, a).key == a.key
    requires TargetId(db, a) in db.rows ==> db.rows[TargetId(db, a)].key == a.key
    ensures var n, id, row := AfterUpsert(db, a), TargetId(db, a), UpsertedRow(db, a);
            && id in n.rows && n.rows[id] == row
            && n.profiles == WithProfile(db.profiles, id, row.createdAt, a) && n.sources == WithSource(db.sources, id, a)
            && (forall i :: i in db.rows ==> i in n.rows && n.rows[i].key == db.rows[i].key)
  {
    hide UpsertedRow, TargetId, UpsertError;
  }

  lemma UpsertKeepsSchema(db: Database, a: Approved)
    requires Schema(db)
    ensures Schema(AfterUpsert(db, a))
  {
    if UpsertError(db, a).None? {
      hide RowsOk, ProfilesOk, SourcesOk, TargetId, HasExact, UpsertedRow, UpsertError, WithProfile, WithSource, Blank;
      hide AfterUpsert;
      UpsertKeepsRows(db, a);
      TargetRow(db, a);
      UpsertedTables(db, a);
      var n, id := AfterUpsert(db, a), TargetId(db, a);
      ProfilesStayOk(db.rows, n.rows, db.profiles, id, UpsertedRow(db, a).createdAt, a);
      SourcesStayOk(db.rows, n.rows, db.sources, id, a);
    }
  }

  lemma EditKeepsSchema(db: Database, e: Edit)
    requires Schema(db)
    ensures Schema(AfterEdit(db, e))
  {
    if Finds(db, e.memoryId, e.user) && EditError(db, e).None? {
      var rows := AfterEdit(db, e).rows;
      forall i, j | i in rows && j in rows && i != j ensures Compatible(rows[i], rows[j]) {
        assert Compatible(db.rows[i], db.rows[j]);
      }
    }
  }

  lemma WithoutKeepsSchema(db: Database, gone: set<string>)
    requires Schema(db)
    ensures Schema(Without(db, gone))
  {
    var n := Without(db, gone);
    forall i, j | i in n.rows && j in n.rows && i != j ensures Compatible(n.rows[i], n.rows[j]) {
      assert Compatible(db.rows[i], db.rows[j]);
    }
  }

  lemma ApplyKeepsSchema(db: Database, op: Op)
    requires Schema(db)
    ensures Schema(Apply(db, op))
  {
    match op
    case Upsert(a) => UpsertKeepsSchema(db, a);
    case UpdateContent(e) => EditKeepsSchema(db, e);
    case Delete(id, owner) => WithoutKeepsSchema(db, {id});
    case Clear(user) => WithoutKeepsSchema(db, OwnedBy(db, user));
  }

  /** Whatever is done, the declared constraints hold. */
  lemma {:induction false} RunKeepsSchema(ops: seq<Op>)
    ensures Schema(Run(ops))
  {
    if ops != [] {
      RunKeepsSchema(ops[..|ops| - 1]);
      ApplyKeepsSchema(Run(ops[..|ops| - 1]), ops[|ops| - 1]);
    }
  }

  // ----- What an operation never changes -----

  /** The same memory later: identity, type and creation time stay, and its scores have not fallen. */
  predicate Continues(before: Row, after: Row) {
    && after.key == before.key && after.memoryType == before.memoryType && after.createdAt == before.createdAt
    && before.importance <= after.importance && before.confidence <= after.confidence
  }

  lemma UpsertContinues(db: Database, a: Approved, id: string)
    requires id in db.rows
    ensures id in AfterUpsert(db, a).rows && Continues(db.rows[id], AfterUpsert(db, a).rows[id])
  {
    if UpsertError(db, a).None? {
      TargetRow(db, a);
    }
  }

  /** No operation changes what identifies a memory, or lowers its scores, while the memory exists. */
  lemma MemoriesContinue(db: Database, op: Op, id: string)
    requires Schema(db) && id in db.rows && id in Apply(db, op).rows
    ensures Continues(db.rows[id], Apply(db, op).rows[id])
  {
    hide AfterUpsert;
    assert Checked(db.rows[id]);
    if op.Upsert? {
      UpsertContinues(db, op.approved, id);
    }
  }

  /** A value seen again takes the better of both scores, and is active with its new text and source. */
  lemma SeenAgain(db: Database, a: Approved, id: string)
    requires Schema(db) && id in db.rows && SameValue(db.rows[id], a) && UpsertError(db, a).None?
    ensures AfterUpsert(db, a).rows.Keys == db.rows.Keys
    ensures var row := AfterUpsert(db, a).rows[id];
            && row.active && row.content == a.content && row.source == a.source && row.updatedAt == a.createdAt
            && (row.importance == db.rows[id].importance || row.importance == a.importance)
            && (row.confidence == db.rows[id].confidence || row.confidence == a.confidence)
            && row.importance >= a.importance && row.confidence >= a.confidence
  {
    TargetRow(db, a);
    assert TargetId(db, a) == id by {
      assert id != TargetId(db, a) ==> Compatible(db.rows[id], db.rows[TargetId(db, a)]);
    }
  }
}
