/** The worker's relational state: `files`, `file_versions` and `upload_intents`, the SQL
    statements the handlers send to it, and what every statement keeps.

    A D1 batch is one transaction, so it is one transition here. Each transition is a function on
    the table values; `Database` holds the same tables in fields and executes the statements of a
    batch one after another, and is proved to reach exactly the state the function describes. */
module CloudTables {
  import opened Wrappers

  // Ids are opaque; a fresh id is one that no row uses. A hash stands for the content it names.
  type FileId = nat
  type IntentId = nat
  type UserId = nat
  type Hash = nat
  type VersionKey = (FileId, nat)

  /** An idempotency key. The client spells it from file, base version, content and a tag; the
      worker only compares it. */
  datatype Key = Key(fileId: FileId, base: nat, hash: Option<Hash>, tag: KeyTag)
  datatype KeyTag = Plain | ForRestore(version: nat) | WaitingAt(path: string) | WaitingRow(row: nat)

  datatype FileStatus = Active | Trashed | Deleted
  datatype VersionStatus = Current | Archived | Expired
  datatype Backend = Bot | UserGroup
  datatype IntentStatus = Reserved | Uploaded | Committed | Abandoned

  datatype FileRow = FileRow(
    workspace: nat,
    logicalName: string,
    relativePath: string,
    status: FileStatus,
    currentVersion: nat,
    currentHash: Option<Hash>)

  datatype VersionRow = VersionRow(
    id: nat,
    hash: Hash,
    baseVersion: nat,
    restoredFrom: Option<nat>,
    status: VersionStatus)

  datatype IntentRow = IntentRow(
    key: Key,
    fileId: FileId,
    owner: UserId,
    workspace: nat,
    logicalName: string,
    baseVersion: nat,
    hash: Hash,
    restoredFrom: Option<nat>,
    backend: Backend,
    status: IntentStatus)

  // `versions` is keyed by the table's UNIQUE(file_id, version) constraint.
  datatype Tables = Tables(
    files: map<FileId, FileRow>,
    versions: map<VersionKey, VersionRow>,
    intents: map<IntentId, IntentRow>)

  function Lower(c: char): char {
    if 'A' <= c <= 'Z' then c - 'A' + 'a' else c
  }

  function NoCase(s: string): string {
    seq(|s|, i requires 0 <= i < |s| => Lower(s[i]))
  }

  /** COLLATE NOCASE: equal up to the case of ASCII letters. */
  predicate SamePath(a: string, b: string) {
    NoCase(a) == NoCase(b)
  }

  /** b is the upper-case ASCII letter a in lower case. */
  predicate IsLower(a: char, b: char) {
    'A' <= a <= 'Z' && b as int == a as int + 32
  }

  /** Two paths are one exactly when they differ at most in the case of ASCII letters. */
  lemma SamePathExactly(a: string, b: string)
    ensures SamePath(a, b) <==>
      |a| == |b| && forall i | 0 <= i < |a| :: a[i] == b[i] || IsLower(a[i], b[i]) || IsLower(b[i], a[i])
  {
    if SamePath(a, b) {
      assert |NoCase(a)| == |NoCase(b)|;
      forall i | 0 <= i < |a| ensures a[i] == b[i] || IsLower(a[i], b[i]) || IsLower(b[i], a[i]) {
        assert NoCase(a)[i] == NoCase(b)[i];
      }
    }
  }

  predicate Occupies(row: FileRow, workspace: nat, path: string) {
    row.status == Active && row.workspace == workspace && SamePath(row.relativePath, path)
  }

  /** Another active file of the workspace already stands at that path. */
  predicate PathTaken(files: map<FileId, FileRow>, f: FileId, workspace: nat, path: string) {
    exists g | g in files.Keys :: g != f && Occupies(files[g], workspace, path)
  }

  /** The unique index on (workspace, path) of active files. */
  ghost predicate PathsUnique(files: map<FileId, FileRow>) {
    forall f, g | f in files && g in files && f != g && files[f].status == Active ::
      !Occupies(files[g], files[f].workspace, files[f].relativePath)
  }

  const DEFAULT_RETENTION := 20
  const Empty := Tables(map[], map[], map[])

  // ---------------------------------------------------------------- retention setting

  predicate ValidRetention(value: int) {
    2 <= value <= 500
  }

  /** The user's own limit, else the deployment's, else the default: never outside 2..500. */
  function GetRetention(userSetting: Option<int>, deployment: Option<int>): (limit: int)
    ensures ValidRetention(limit)
    ensures userSetting.Some? && ValidRetention(userSetting.value) ==> limit == userSetting.value
  {
    if userSetting.Some? && ValidRetention(userSetting.value) then userSetting.value
    else if deployment.Some? && ValidRetention(deployment.value) then deployment.value
    else DEFAULT_RETENTION
  }

  // ---------------------------------------------------------------- statements

  /** What a version-creating batch binds to its statements. */
  datatype Advance = Advance(
    versionId: nat,
    fileId: FileId,
    workspace: nat,
    base: nat,
    hash: Hash,
    restoredFrom: Option<nat>,
    expireThrough: int)

  ghost predicate FreshVersionId(versions: map<VersionKey, VersionRow>, id: nat) {
    forall k :: k in versions ==> versions[k].id != id
  }

  /** The compare-and-swap guard of the batch: the file still stands where the handler read it. */
  predicate AtBase(files: map<FileId, FileRow>, fileId: FileId, workspace: nat, base: nat) {
    fileId in files && files[fileId].workspace == workspace && files[fileId].currentVersion == base
  }

  /** The INSERT of the version goes through. */
  predicate Inserts(t: Tables, a: Advance) {
    AtBase(t.files, a.fileId, a.workspace, a.base) && (a.fileId, a.base + 1) !in t.versions
  }

  /** So does the UPDATE that makes the file active, under the unique index on active paths. */
  predicate Wins(t: Tables, a: Advance) {
    Inserts(t, a) && !PathTaken(t.files, a.fileId, a.workspace, t.files[a.fileId].relativePath)
  }

  /** A constraint of the database stops the batch, which then changes nothing. */
  predicate Aborts(t: Tables, a: Advance) {
    AtBase(t.files, a.fileId, a.workspace, a.base) && !Wins(t, a)
  }

  /** A version's status once `newVersion` is current and everything up to `expireThrough` expired. */
  function Aged(status: VersionStatus, version: nat, newVersion: nat, expireThrough: int): VersionStatus {
    if version <= expireThrough then Expired
    else if version < newVersion && status == Current then Archived
    else status
  }

  function NewRow(a: Advance): VersionRow {
    VersionRow(a.versionId, a.hash, a.base, a.restoredFrom, Current)
  }

  function AgedVersions(versions: map<VersionKey, VersionRow>, fileId: FileId, newVersion: nat, expireThrough: int): map<VersionKey, VersionRow> {
    map k | k in versions :: if k.0 == fileId
      then versions[k].(status := Aged(versions[k].status, k.1, newVersion, expireThrough))
      else versions[k]
  }

  function Advanced(t: Tables, a: Advance): Tables {
    var row := if a.fileId in t.files then t.files[a.fileId] else FileRow(a.workspace, "", "", Active, 0, None);
    t.(versions := AgedVersions(t.versions[(a.fileId, a.base + 1) := NewRow(a)], a.fileId, a.base + 1, a.expireThrough),
       files := t.files[a.fileId := row.(currentVersion := a.base + 1, currentHash := Some(a.hash))])
  }

  /** Commit batch: the version and the pointer move together with the intent, or nothing moves. */
  function CommitBatch(t: Tables, a: Advance, intentId: IntentId, owner: UserId, logicalName: string): Tables {
    if !Wins(t, a) then t else
      var next := Advanced(t, a);
      var named := next.files[a.fileId].(logicalName := logicalName, status := Active);
      next.(files := next.files[a.fileId := named],
            intents := if intentId in t.intents && t.intents[intentId].owner == owner && t.intents[intentId].status == Uploaded
                       then t.intents[intentId := t.intents[intentId].(status := Committed)]
                       else t.intents)
  }

  /** Restore batch: the same compare-and-swap, without an intent. */
  function RestoreBatch(t: Tables, a: Advance): Tables {
    if !Wins(t, a) then t else
      var next := Advanced(t, a);
      next.(files := next.files[a.fileId := next.files[a.fileId].(status := Active)])
  }

  /** Rewind's version batch. Its INSERT carries no guard: a row already there violates the unique
      key and rolls the batch back; otherwise the version is inserted even where the pointer's own
      guarded UPDATE then matches nothing. Nothing is expired. */
  function RewindBatch(t: Tables, a: Advance): Tables
    requires a.fileId in t.files
  {
    if (a.fileId, a.base + 1) in t.versions then t else
      var versions := AgedVersions(t.versions[(a.fileId, a.base + 1) := NewRow(a)], a.fileId, a.base + 1, -1);
      if t.files[a.fileId].currentVersion == a.base
      then t.(versions := versions,
              files := t.files[a.fileId := t.files[a.fileId].(currentVersion := a.base + 1, currentHash := Some(a.hash))])
      else t.(versions := versions)
  }

  function InsertFile(t: Tables, fileId: FileId, row: FileRow): Tables {
    if fileId in t.files then t else t.(files := t.files[fileId := row])
  }

  /** INSERT INTO upload_intents under UNIQUE(owner_user_id, idempotency_key). */
  predicate KeyFree(intents: map<IntentId, IntentRow>, owner: UserId, key: Key) {
    forall i | i in intents.Keys :: !(intents[i].owner == owner && intents[i].key == key)
  }

  function InsertIntent(t: Tables, intentId: IntentId, row: IntentRow): Tables {
    if intentId in t.intents || !KeyFree(t.intents, row.owner, row.key) then t
    else t.(intents := t.intents[intentId := row])
  }

  /** UPDATE upload_intents SET status = 'uploaded' WHERE ... AND status = 'reserved'. */
  function MarkUploaded(t: Tables, intentId: IntentId, owner: UserId): Tables {
    if intentId in t.intents && t.intents[intentId].owner == owner && t.intents[intentId].status == Reserved
    then t.(intents := t.intents[intentId := t.intents[intentId].(status := Uploaded)])
    else t
  }

  /** UPDATE upload_intents SET status = 'abandoned' WHERE id = ?: no guard on the old status. */
  function MarkAbandoned(t: Tables, intentId: IntentId): Tables {
    if intentId in t.intents
    then t.(intents := t.intents[intentId := t.intents[intentId].(status := Abandoned)])
    else t
  }

  /** Every statement that touches only name, path and status of a file row: rename, trash,
      restore-from-trash, permanent delete, rewind of path or status. */
  function SetMetadata(t: Tables, fileId: FileId, name: string, path: string, status: FileStatus): Tables {
    if fileId in t.files
    then t.(files := t.files[fileId := t.files[fileId].(logicalName := name, relativePath := path, status := status)])
    else t
  }

  // ---------------------------------------------------------------- what every statement keeps

  /** (version, hash) is what a file was never at, or a version the cloud really holds. */
  predicate PairReal(t: Tables, fileId: FileId, version: nat, hash: Option<Hash>) {
    if version == 0 then hash == None
    else (fileId, version) in t.versions && hash == Some(t.versions[(fileId, version)].hash)
  }

  /** The versions of each file are exactly 1..current... */
  ghost predicate Dense(t: Tables) {
    && (forall k :: k in t.versions ==> k.0 in t.files && 1 <= k.1 <= t.files[k.0].currentVersion)
    && (forall f, v: nat :: f in t.files && 1 <= v <= t.files[f].currentVersion ==> (f, v) in t.versions)
  }

  /** ...each built on the one before it... */
  ghost predicate Linked(versions: map<VersionKey, VersionRow>) {
    forall k :: k in versions ==> versions[k].baseVersion == k.1 - 1
  }

  /** ...and every file row's pointer names its last version. */
  ghost predicate PointersReal(t: Tables) {
    forall f :: f in t.files ==> PairReal(t, f, t.files[f].currentVersion, t.files[f].currentHash)
  }

  ghost predicate Chain(t: Tables) {
    Dense(t) && Linked(t.versions) && PointersReal(t)
  }

  ghost predicate UniqueIds(versions: map<VersionKey, VersionRow>) {
    forall k, k' | k in versions && k' in versions && versions[k].id == versions[k'].id :: k == k'
  }

  ghost predicate IsExpired(t: Tables, k: VersionKey) {
    k in t.versions && t.versions[k].status == Expired
  }

  /** Only the current row of a file is `active`. */
  ghost predicate OneCurrent(t: Tables) {
    forall k | k in t.versions ::
      t.versions[k].status == Current <==> k.0 in t.files && k.1 == t.files[k.0].currentVersion
  }

  /** Expired rows lie at least two behind the current one and form a prefix of the history. */
  ghost predicate ExpiredPrefix(t: Tables) {
    && (forall f: FileId, v: nat :: IsExpired(t, (f, v)) ==> f in t.files && 1 <= v && v + 2 <= t.files[f].currentVersion)
    && (forall f: FileId, v: nat, w: nat :: 1 <= v < w && IsExpired(t, (f, w)) ==> IsExpired(t, (f, v)))
  }

  ghost predicate RetentionShape(t: Tables) {
    OneCurrent(t) && ExpiredPrefix(t)
  }

  /** Some version above `base` holds `hash`. */
  ghost predicate InChainAbove(t: Tables, fileId: FileId, base: nat, hash: Hash) {
    exists v: nat :: base < v && (fileId, v) in t.versions && t.versions[(fileId, v)].hash == hash
  }

  /** An intent that ended did so because its content is in the chain above its base. */
  ghost predicate IntentsSettled(t: Tables) {
    forall i :: i in t.intents ==>
      && t.intents[i].fileId in t.files
      && t.intents[i].baseVersion <= t.files[t.intents[i].fileId].currentVersion
      && (t.intents[i].status in {Committed, Abandoned} ==>
            InChainAbove(t, t.intents[i].fileId, t.intents[i].baseVersion, t.intents[i].hash))
  }

  ghost predicate UniqueKeys(intents: map<IntentId, IntentRow>) {
    forall i, j |
      && i in intents && j in intents
      && intents[i].owner == intents[j].owner && intents[i].key == intents[j].key
      :: i == j
  }

  ghost predicate Consistent(t: Tables) {
    Chain(t) && UniqueIds(t.versions) && RetentionShape(t) && IntentsSettled(t) && UniqueKeys(t.intents)
  }

  // ---------------------------------------------------------------- what only ever grows

  function Age(s: VersionStatus): nat {
    match s case Current => 0 case Archived => 1 case Expired => 2
  }

  ghost predicate SameContent(r: VersionRow, r': VersionRow) {
    r' == r.(status := r'.status) && Age(r.status) <= Age(r'.status)
  }

  ghost predicate SameIntent(i: IntentRow, i': IntentRow) {
    i' == i.(status := i'.status) && (i.status in {Committed, Abandoned} ==> i'.status in {Committed, Abandoned})
      && (i.status != Reserved ==> i'.status != Reserved)
  }

  ghost predicate FilesGrow(t: Tables, t': Tables) {
    forall f | f in t.files ::
      && f in t'.files
      && t'.files[f].workspace == t.files[f].workspace
      && t.files[f].currentVersion <= t'.files[f].currentVersion
  }

  ghost predicate VersionsGrow(t: Tables, t': Tables) {
    forall k | k in t.versions :: k in t'.versions && SameContent(t.versions[k], t'.versions[k])
  }

  ghost predicate IntentsGrow(t: Tables, t': Tables) {
    forall i | i in t.intents :: i in t'.intents && SameIntent(t.intents[i], t'.intents[i])
  }

  /** Later tables: no row disappears, no version rewrites its content, no pointer moves back. */
  ghost predicate Grows(t: Tables, t': Tables) {
    FilesGrow(t, t') && VersionsGrow(t, t') && IntentsGrow(t, t')
  }

  lemma GrowsRefl(t: Tables)
    ensures Grows(t, t)
  {
  }

  lemma GrowsTrans(a: Tables, b: Tables, c: Tables)
    requires Grows(a, b) && Grows(b, c)
    ensures Grows(a, c)
  {
  }

  lemma PairStaysReal(t: Tables, t': Tables, fileId: FileId, version: nat, hash: Option<Hash>)
    requires Grows(t, t') && PairReal(t, fileId, version, hash)
    ensures PairReal(t', fileId, version, hash)
  {
  }

  lemma StaysInChain(t: Tables, t': Tables, fileId: FileId, base: nat, hash: Hash)
    requires Grows(t, t') && InChainAbove(t, fileId, base, hash)
    ensures InChainAbove(t', fileId, base, hash)
  {
    var v: nat :| base < v && (fileId, v) in t.versions && t.versions[(fileId, v)].hash == hash;
    assert t'.versions[(fileId, v)].hash == hash;
  }

  lemma SettledStays(t: Tables, t': Tables)
    requires Grows(t, t') && IntentsSettled(t) && t'.intents == t.intents
    ensures IntentsSettled(t')
  {
    forall i | i in t'.intents && t'.intents[i].status in {Committed, Abandoned}
      ensures InChainAbove(t', t'.intents[i].fileId, t'.intents[i].baseVersion, t'.intents[i].hash)
    {
      StaysInChain(t, t', t'.intents[i].fileId, t'.intents[i].baseVersion, t'.intents[i].hash);
    }
  }

  // ---------------------------------------------------------------- the version-creating batches

  /** Either version batch of a file at its base puts one new row on top of the chain. */
  lemma AdvancedKeepsDense(t: Tables, a: Advance)
    requires Dense(t) && Inserts(t, a)
    ensures Dense(Advanced(t, a))
  {
    var t' := Advanced(t, a);
    assert t'.versions.Keys == t.versions.Keys + {(a.fileId, a.base + 1)};
    assert t'.files.Keys == t.files.Keys;
  }

  lemma AdvancedKeepsPointers(t: Tables, a: Advance)
    requires Dense(t) && Linked(t.versions) && PointersReal(t) && Inserts(t, a)
    ensures Linked(Advanced(t, a).versions) && PointersReal(Advanced(t, a))
  {
    hide Dense;
    var t' := Advanced(t, a);
    forall f | f in t'.files
      ensures PairReal(t', f, t'.files[f].currentVersion, t'.files[f].currentHash)
    {
      if f != a.fileId { assert PairReal(t, f, t.files[f].currentVersion, t.files[f].currentHash); }
    }
  }

  lemma AdvancedGrows(t: Tables, a: Advance)
    requires Inserts(t, a)
    ensures Grows(t, Advanced(t, a))
  {
  }

  lemma AdvancedKeepsIds(t: Tables, a: Advance)
    requires UniqueIds(t.versions) && Inserts(t, a) && FreshVersionId(t.versions, a.versionId)
    ensures UniqueIds(Advanced(t, a).versions)
  {
    var t' := Advanced(t, a);
    forall k | k in t'.versions
      ensures k == (a.fileId, a.base + 1) || (k in t.versions && t'.versions[k].id == t.versions[k].id)
    {
    }
  }

  lemma AdvancedKeepsCurrent(t: Tables, a: Advance)
    requires Dense(t) && OneCurrent(t) && Inserts(t, a) && (a.expireThrough < 1 || a.expireThrough < a.base)
    ensures OneCurrent(Advanced(t, a))
  {
  }

  lemma AdvancedKeepsExpired(t: Tables, a: Advance)
    requires Dense(t) && OneCurrent(t) && ExpiredPrefix(t) && Inserts(t, a) && (a.expireThrough < 1 || a.expireThrough < a.base)
    ensures ExpiredPrefix(Advanced(t, a))
  {
    var t' := Advanced(t, a);
    forall f: FileId, v: nat | IsExpired(t', (f, v))
      ensures f in t'.files && 1 <= v && v + 2 <= t'.files[f].currentVersion
    {
      assert (f, v) in t'.versions;
      if f != a.fileId || !(v <= a.expireThrough) { assert IsExpired(t, (f, v)); }
    }
    forall f: FileId, v: nat, w: nat | 1 <= v < w && IsExpired(t', (f, w))
      ensures IsExpired(t', (f, v))
    {
      OlderExpired(t, a, f, v, w);
    }
  }

  lemma OlderExpired(t: Tables, a: Advance, f: FileId, v: nat, w: nat)
    requires Dense(t) && ExpiredPrefix(t) && Inserts(t, a)
    requires 1 <= v < w && IsExpired(Advanced(t, a), (f, w))
    ensures IsExpired(Advanced(t, a), (f, v))
  {
    assert (f, w) in t.versions || (f, w) == (a.fileId, a.base + 1);
    assert (f, v) in t.versions;
    if f != a.fileId || !(w <= a.expireThrough) {
      assert IsExpired(t, (f, w));
      assert IsExpired(t, (f, v));
    }
  }

  /** An advanced file keeps every consistency condition but the intent that caused it, which is
      settled by the row just inserted. */
  lemma AdvancedKeeps(t: Tables, a: Advance)
    requires Consistent(t) && Inserts(t, a) && FreshVersionId(t.versions, a.versionId)
    requires a.expireThrough < 1 || a.expireThrough < a.base
    ensures Consistent(Advanced(t, a)) && Grows(t, Advanced(t, a))
    ensures InChainAbove(Advanced(t, a), a.fileId, a.base, a.hash)
  {
    var t' := Advanced(t, a);
    AdvancedKeepsDense(t, a);
    AdvancedKeepsPointers(t, a);
    AdvancedKeepsIds(t, a);
    AdvancedKeepsCurrent(t, a);
    AdvancedKeepsExpired(t, a);
    AdvancedGrows(t, a);
    SettledStays(t, t');
    assert t'.versions[(a.fileId, a.base + 1)].hash == a.hash;
  }

  /** The database stops a batch exactly when the file has left its path since it was uploaded
      (it is in the trash, or deleted) and another active file stands there now. */
  lemma AbortsExactly(t: Tables, a: Advance)
    requires Dense(t) && PathsUnique(t.files) && AtBase(t.files, a.fileId, a.workspace, a.base)
    ensures Aborts(t, a) <==>
      t.files[a.fileId].status != Active && PathTaken(t.files, a.fileId, a.workspace, t.files[a.fileId].relativePath)
  {
  }

  /** A row that becomes or stays active needs a free path. */
  lemma RowKeepsPaths(files: map<FileId, FileRow>, f: FileId, row: FileRow)
    requires PathsUnique(files) && (row.status == Active ==> !PathTaken(files, f, row.workspace, row.relativePath))
    ensures PathsUnique(files[f := row])
  {
    hide NoCase;
    forall g | g in files && g != f && row.status == Active ensures !Occupies(files[g], row.workspace, row.relativePath) {
    }
  }

  /** A row that keeps its path and status keeps the index. */
  lemma PointerKeepsPaths(files: map<FileId, FileRow>, f: FileId, row: FileRow)
    requires PathsUnique(files) && f in files
    requires row.status == files[f].status && row.workspace == files[f].workspace && row.relativePath == files[f].relativePath
    ensures PathsUnique(files[f := row])
  {
    hide SamePath;
  }

  lemma BatchesKeepPaths(t: Tables, a: Advance, i: IntentId, owner: UserId, name: string)
    requires PathsUnique(t.files)
    ensures PathsUnique(CommitBatch(t, a, i, owner, name).files) && PathsUnique(RestoreBatch(t, a).files)
    ensures a.fileId in t.files ==> PathsUnique(RewindBatch(t, a).files)
  {
    hide PathsUnique, PathTaken, AgedVersions;
    if a.fileId in t.files {
      var row := t.files[a.fileId].(currentVersion := a.base + 1, currentHash := Some(a.hash));
      PointerKeepsPaths(t.files, a.fileId, row);
      if Wins(t, a) {
        RowKeepsPaths(t.files, a.fileId, row.(status := Active));
        RowKeepsPaths(t.files, a.fileId, row.(status := Active, logicalName := name));
        assert CommitBatch(t, a, i, owner, name).files == t.files[a.fileId := row.(status := Active, logicalName := name)];
        assert RestoreBatch(t, a).files == t.files[a.fileId := row.(status := Active)];
      }
    }
  }

  /** The version table is untouched, and no file row changed its pointer; new files are at 0. */
  ghost predicate SameVersions(t: Tables, t': Tables) {
    && t'.versions == t.versions
    && (forall f | f in t.files ::
          && f in t'.files
          && t'.files[f].workspace == t.files[f].workspace
          && t'.files[f].currentVersion == t.files[f].currentVersion
          && t'.files[f].currentHash == t.files[f].currentHash)
    && (forall f | f in t'.files && f !in t.files :: t'.files[f].currentVersion == 0 && t'.files[f].currentHash == None)
  }

  lemma SameVersionsKeepChain(t: Tables, t': Tables)
    requires SameVersions(t, t') && Chain(t)
    ensures Chain(t')
  {
    assert Dense(t');
    forall f | f in t'.files
      ensures PairReal(t', f, t'.files[f].currentVersion, t'.files[f].currentHash)
    {
      if f in t.files { assert PairReal(t, f, t.files[f].currentVersion, t.files[f].currentHash); }
    }
  }

  lemma SameVersionsKeepShape(t: Tables, t': Tables)
    requires SameVersions(t, t') && Dense(t) && RetentionShape(t)
    ensures RetentionShape(t')
  {
    assert forall k: VersionKey :: IsExpired(t', k) <==> IsExpired(t, k);
    assert OneCurrent(t');
  }

  lemma SameVersionsGrow(t: Tables, t': Tables)
    requires SameVersions(t, t') && IntentsGrow(t, t')
    ensures Grows(t, t')
  {
  }

  /** Statements on names, paths and states of files, or on nothing but new files at version 0. */
  lemma MetadataKeeps(t: Tables, t': Tables)
    requires SameVersions(t, t') && t'.intents == t.intents && Consistent(t)
    ensures Consistent(t') && Grows(t, t')
  {
    hide Dense, Linked, PointersReal, UniqueIds, RetentionShape, IntentsSettled, UniqueKeys;
    SameVersionsGrow(t, t');
    SettledStays(t, t');
    SameVersionsKeepChain(t, t');
    SameVersionsKeepShape(t, t');
  }

  /** Statements on intents: each must leave every ended intent's content in the chain. */
  lemma IntentsKeep(t: Tables, t': Tables)
    requires t'.versions == t.versions && t'.files == t.files && IntentsGrow(t, t') && Consistent(t)
    requires IntentsSettled(t') && UniqueKeys(t'.intents)
    ensures Consistent(t') && Grows(t, t')
  {
    hide Dense, Linked, PointersReal, UniqueIds, RetentionShape, IntentsSettled, UniqueKeys;
    SameVersionsGrow(t, t');
    SameVersionsKeepChain(t, t');
    SameVersionsKeepShape(t, t');
  }

  function WithStatus(t: Tables, i: IntentId, status: IntentStatus): Tables
    requires i in t.intents
  {
    t.(intents := t.intents[i := t.intents[i].(status := status)])
  }

  /** An intent may move forward; to an end only once its content is in the chain. */
  lemma IntentStepKeeps(t: Tables, i: IntentId, status: IntentStatus)
    requires Consistent(t) && i in t.intents
    requires SameIntent(t.intents[i], t.intents[i].(status := status))
    requires status in {Committed, Abandoned} ==>
      InChainAbove(t, t.intents[i].fileId, t.intents[i].baseVersion, t.intents[i].hash)
    ensures Consistent(WithStatus(t, i, status)) && Grows(t, WithStatus(t, i, status))
  {
    IntentStepSettled(t, i, status);
    assert UniqueKeys(WithStatus(t, i, status).intents);
    assert IntentsGrow(t, WithStatus(t, i, status));
    hide Dense, Linked, PointersReal, UniqueIds, OneCurrent, ExpiredPrefix, IntentsSettled, UniqueKeys, FilesGrow, VersionsGrow, IntentsGrow, InChainAbove;
    IntentsKeep(t, WithStatus(t, i, status));
  }

  lemma IntentStepSettled(t: Tables, i: IntentId, status: IntentStatus)
    requires IntentsSettled(t) && i in t.intents
    requires status in {Committed, Abandoned} ==>
      InChainAbove(t, t.intents[i].fileId, t.intents[i].baseVersion, t.intents[i].hash)
    ensures IntentsSettled(WithStatus(t, i, status))
  {
    var t' := WithStatus(t, i, status);
    forall j | j in t'.intents
      ensures t'.intents[j].status in {Committed, Abandoned} ==>
        InChainAbove(t', t'.intents[j].fileId, t'.intents[j].baseVersion, t'.intents[j].hash)
    {
      SameChainAbove(t, t', t.intents[j].fileId, t.intents[j].baseVersion, t.intents[j].hash);
    }
  }

  lemma SameChainAbove(t: Tables, t': Tables, f: FileId, base: nat, hash: Hash)
    requires t'.versions == t.versions
    ensures InChainAbove(t, f, base, hash) <==> InChainAbove(t', f, base, hash)
  {
  }

  lemma CommitKeeps(t: Tables, a: Advance, i: IntentId, owner: UserId, name: string)
    requires Consistent(t) && FreshVersionId(t.versions, a.versionId) && a.expireThrough < a.base
    requires i in t.intents && t.intents[i].fileId == a.fileId && t.intents[i].baseVersion == a.base && t.intents[i].hash == a.hash
    ensures Consistent(CommitBatch(t, a, i, owner, name)) && Grows(t, CommitBatch(t, a, i, owner, name))
  {
    hide Chain, UniqueIds, RetentionShape, IntentsSettled, UniqueKeys, FilesGrow, VersionsGrow, InChainAbove, FreshVersionId;
    GrowsRefl(t);
    if Wins(t, a) {
      var next := Advanced(t, a);
      AdvancedKeeps(t, a);
      var named := next.(files := next.files[a.fileId := next.files[a.fileId].(logicalName := name, status := Active)]);
      MetadataKeeps(next, named);
      StaysInChain(next, named, a.fileId, a.base, a.hash);
      GrowsTrans(t, next, named);
      if t.intents[i].owner == owner && t.intents[i].status == Uploaded {
        IntentStepKeeps(named, i, Committed);
        GrowsTrans(t, named, CommitBatch(t, a, i, owner, name));
      } else {
        assert CommitBatch(t, a, i, owner, name) == named;
      }
    }
  }

  lemma RestoreKeeps(t: Tables, a: Advance)
    requires Consistent(t) && FreshVersionId(t.versions, a.versionId) && a.expireThrough < a.base
    ensures Consistent(RestoreBatch(t, a)) && Grows(t, RestoreBatch(t, a))
  {
    hide Chain, UniqueIds, RetentionShape, IntentsSettled, UniqueKeys, FilesGrow, VersionsGrow, IntentsGrow, InChainAbove;
    GrowsRefl(t);
    if Wins(t, a) {
      AdvancedKeeps(t, a);
      MetadataKeeps(Advanced(t, a), RestoreBatch(t, a));
      GrowsTrans(t, Advanced(t, a), RestoreBatch(t, a));
    }
  }

  /** The unique key stands in for the guard that rewind's INSERT lacks: on a dense chain, with a
      base that some earlier read of the file returned, the batch is the guarded one or nothing. */
  lemma RewindBatchIsGuarded(t: Tables, a: Advance)
    requires Dense(t) && a.fileId in t.files && a.base <= t.files[a.fileId].currentVersion
    ensures RewindBatch(t, a) ==
      if t.files[a.fileId].currentVersion == a.base then Advanced(t, a.(expireThrough := -1)) else t
  {
    if t.files[a.fileId].currentVersion != a.base {
      assert (a.fileId, a.base + 1) in t.versions;
    }
  }

  lemma UniqueKeyFree(t: Tables, a: Advance)
    requires Dense(t) && a.fileId in t.files && t.files[a.fileId].currentVersion == a.base
    ensures (a.fileId, a.base + 1) !in t.versions
  {
  }

  lemma RewindKeeps(t: Tables, a: Advance)
    requires Consistent(t) && FreshVersionId(t.versions, a.versionId)
    requires a.fileId in t.files && a.base <= t.files[a.fileId].currentVersion
    ensures Consistent(RewindBatch(t, a)) && Grows(t, RewindBatch(t, a))
  {
    hide Dense, Linked, PointersReal, UniqueIds, OneCurrent, ExpiredPrefix, IntentsSettled, UniqueKeys, FilesGrow, VersionsGrow, IntentsGrow, InChainAbove, FreshVersionId, RewindBatch;
    GrowsRefl(t);
    RewindBatchIsGuarded(t, a);
    if t.files[a.fileId].currentVersion == a.base {
      UniqueKeyFree(t, a);
      AdvancedKeeps(t, a.(expireThrough := -1, workspace := t.files[a.fileId].workspace));
    }
  }

  lemma InsertFileKeeps(t: Tables, f: FileId, row: FileRow)
    requires Consistent(t) && row.currentVersion == 0 && row.currentHash == None
    ensures Consistent(InsertFile(t, f, row)) && Grows(t, InsertFile(t, f, row))
  {
    hide Linked, UniqueIds, RetentionShape, IntentsSettled, UniqueKeys, Grows;
    MetadataKeeps(t, InsertFile(t, f, row));
  }

  lemma SetMetadataKeeps(t: Tables, f: FileId, name: string, path: string, status: FileStatus)
    requires Consistent(t)
    ensures Consistent(SetMetadata(t, f, name, path, status)) && Grows(t, SetMetadata(t, f, name, path, status))
  {
    hide Chain, UniqueIds, RetentionShape, IntentsSettled, UniqueKeys, FilesGrow, VersionsGrow, IntentsGrow, InChainAbove;
    MetadataKeeps(t, SetMetadata(t, f, name, path, status));
  }

  lemma InsertIntentKeeps(t: Tables, i: IntentId, row: IntentRow)
    requires Consistent(t) && row.status == Reserved && row.fileId in t.files
    requires row.baseVersion <= t.files[row.fileId].currentVersion
    ensures Consistent(InsertIntent(t, i, row)) && Grows(t, InsertIntent(t, i, row))
  {
    InsertIntentSettled(t, i, row);
    InsertIntentUnique(t, i, row);
    hide IntentsSettled, UniqueKeys, Chain, RetentionShape, KeyFree;
    IntentsKeep(t, InsertIntent(t, i, row));
  }

  lemma InsertIntentSettled(t: Tables, i: IntentId, row: IntentRow)
    requires IntentsSettled(t) && row.status == Reserved && row.fileId in t.files
    requires row.baseVersion <= t.files[row.fileId].currentVersion
    ensures IntentsSettled(InsertIntent(t, i, row))
  {
    var t' := InsertIntent(t, i, row);
    forall j | j in t'.intents
      ensures t'.intents[j].status in {Committed, Abandoned} ==>
        InChainAbove(t', t'.intents[j].fileId, t'.intents[j].baseVersion, t'.intents[j].hash)
    {
      if j in t.intents { SameChainAbove(t, t', t.intents[j].fileId, t.intents[j].baseVersion, t.intents[j].hash); }
    }
  }

  lemma InsertIntentUnique(t: Tables, i: IntentId, row: IntentRow)
    requires UniqueKeys(t.intents)
    ensures UniqueKeys(InsertIntent(t, i, row).intents)
  {
  }

  lemma MarkUploadedKeeps(t: Tables, i: IntentId, owner: UserId)
    requires Consistent(t)
    ensures Consistent(MarkUploaded(t, i, owner)) && Grows(t, MarkUploaded(t, i, owner))
  {
    hide Chain, UniqueIds, RetentionShape, IntentsSettled, UniqueKeys, FilesGrow, VersionsGrow, IntentsGrow, InChainAbove;
    GrowsRefl(t);
    if i in t.intents && t.intents[i].owner == owner && t.intents[i].status == Reserved {
      IntentStepKeeps(t, i, Uploaded);
    }
  }

  lemma MarkAbandonedKeeps(t: Tables, i: IntentId)
    requires Consistent(t)
    requires i in t.intents ==> InChainAbove(t, t.intents[i].fileId, t.intents[i].baseVersion, t.intents[i].hash)
    ensures Consistent(MarkAbandoned(t, i)) && Grows(t, MarkAbandoned(t, i))
  {
    hide Chain, UniqueIds, RetentionShape, IntentsSettled, UniqueKeys, FilesGrow, VersionsGrow, IntentsGrow, InChainAbove;
    GrowsRefl(t);
    if i in t.intents { IntentStepKeeps(t, i, Abandoned); }
  }

  // ---------------------------------------------------------------- the tables in place

  /** The same tables in mutable fields; each method runs the statements the worker sends. */
  class Database {
    var files: map<FileId, FileRow>
    var versions: map<VersionKey, VersionRow>
    var intents: map<IntentId, IntentRow>

    constructor ()
      ensures Rows() == Empty
    {
      files, versions, intents := map[], map[], map[];
    }

    ghost function Rows(): Tables
      reads this
    {
      Tables(files, versions, intents)
    }

    /** SELECT 1 FROM file_versions WHERE id = ? */
    predicate HasVersionId(id: nat)
      reads this`versions
    {
      exists k | k in versions.Keys :: versions[k].id == id
    }

    /** UPDATE file_versions SET status = 'archived' WHERE version < ? AND status = 'active' AND EXISTS (...) */
    method ArchiveBelow(fileId: FileId, newVersion: nat, versionId: nat)
      modifies this`versions
      ensures versions == if !old(HasVersionId(versionId)) then old(versions) else
        map k | k in old(versions) :: if k.0 == fileId && k.1 < newVersion && old(versions)[k].status == Current
          then old(versions)[k].(status := Archived) else old(versions)[k]
    {
      if HasVersionId(versionId) {
        versions := map k | k in versions :: if k.0 == fileId && k.1 < newVersion && versions[k].status == Current
          then versions[k].(status := Archived) else versions[k];
      }
    }

    /** UPDATE file_versions SET status = 'expired' WHERE version <= ? AND status != 'expired' AND EXISTS (...) */
    method ExpireThrough(fileId: FileId, expireThrough: int, versionId: nat)
      modifies this`versions
      ensures versions == if !old(HasVersionId(versionId)) then old(versions) else
        map k | k in old(versions) :: if k.0 == fileId && k.1 <= expireThrough && old(versions)[k].status != Expired
          then old(versions)[k].(status := Expired) else old(versions)[k]
    {
      if HasVersionId(versionId) {
        versions := map k | k in versions :: if k.0 == fileId && k.1 <= expireThrough && versions[k].status != Expired
          then versions[k].(status := Expired) else versions[k];
      }
    }

    /** INSERT INTO file_versions ... SELECT ... WHERE the file stands at the base. The unique key
        aborts the whole transaction. */
    method InsertVersion(a: Advance) returns (inserted: bool, aborted: bool)
      requires FreshVersionId(versions, a.versionId)
      modifies this`versions
      ensures inserted <==> Inserts(old(Rows()), a)
      ensures aborted <==> AtBase(files, a.fileId, a.workspace, a.base) && (a.fileId, a.base + 1) in old(versions)
      ensures versions == if inserted then old(versions)[(a.fileId, a.base + 1) := NewRow(a)] else old(versions)
      ensures HasVersionId(a.versionId) <==> inserted
    {
      var key := (a.fileId, a.base + 1);
      var atBase := AtBase(files, a.fileId, a.workspace, a.base);
      inserted, aborted := atBase && key !in versions, atBase && key in versions;
      if inserted {
        versions := versions[key := NewRow(a)];
        assert key in versions && versions[key].id == a.versionId;
      }
    }

    /** The two statements that age the older versions. */
    method AgeVersions(fileId: FileId, newVersion: nat, expireThrough: int, versionId: nat)
      modifies this`versions
      ensures versions == if old(HasVersionId(versionId)) then AgedVersions(old(versions), fileId, newVersion, expireThrough) else old(versions)
    {
      ArchiveBelow(fileId, newVersion, versionId);
      label archived:
      assert HasVersionId(versionId) == old(HasVersionId(versionId)) by {
        if old(HasVersionId(versionId)) {
          var k :| k in old(versions) && old(versions)[k].id == versionId;
          assert k in versions && versions[k].id == versionId;
        }
      }
      ExpireThrough(fileId, expireThrough, versionId);
      if old(HasVersionId(versionId)) {
        AgedInTwoSteps(old(versions), old@archived(versions), versions, fileId, newVersion, expireThrough);
      }
    }

    /** The five statements of a commit, in the order the batch lists them. `won` is the pair of
        change counts the handler checks afterwards. */
    method RunCommit(a: Advance, intentId: IntentId, owner: UserId, logicalName: string) returns (won: bool, aborted: bool)
      requires FreshVersionId(versions, a.versionId)
      modifies this
      ensures Rows() == CommitBatch(old(Rows()), a, intentId, owner, logicalName)
      ensures won == Wins(old(Rows()), a) && aborted == Aborts(old(Rows()), a)
    {
      hide FreshVersionId, AgedVersions;
      var before := versions;
      var inserted;
      inserted, aborted := InsertVersion(a);
      if aborted {
        return false, true;
      }
      won := AtBase(files, a.fileId, a.workspace, a.base) && HasVersionId(a.versionId);
      if won && PathTaken(files, a.fileId, a.workspace, files[a.fileId].relativePath) {
        versions := before;
        return false, true;
      }
      if won {
        files := files[a.fileId := files[a.fileId].(
          logicalName := logicalName, currentVersion := a.base + 1, currentHash := Some(a.hash), status := Active)];
      }
      if intentId in intents && intents[intentId].owner == owner && intents[intentId].status == Uploaded && HasVersionId(a.versionId) {
        intents := intents[intentId := intents[intentId].(status := Committed)];
      }
      AgeVersions(a.fileId, a.base + 1, a.expireThrough, a.versionId);
    }

    method RunRestore(a: Advance) returns (won: bool, aborted: bool)
      requires FreshVersionId(versions, a.versionId)
      modifies this
      ensures Rows() == RestoreBatch(old(Rows()), a)
      ensures won == Wins(old(Rows()), a) && aborted == Aborts(old(Rows()), a)
    {
      hide FreshVersionId, AgedVersions;
      var before := versions;
      var inserted;
      inserted, aborted := InsertVersion(a);
      if aborted {
        return false, true;
      }
      won := AtBase(files, a.fileId, a.workspace, a.base) && HasVersionId(a.versionId);
      if won && PathTaken(files, a.fileId, a.workspace, files[a.fileId].relativePath) {
        versions := before;
        return false, true;
      }
      if won {
        files := files[a.fileId := files[a.fileId].(currentVersion := a.base + 1, currentHash := Some(a.hash), status := Active)];
      }
      AgeVersions(a.fileId, a.base + 1, a.expireThrough, a.versionId);
    }

    /** Rewind's batch: an unguarded INSERT, a guarded pointer, an unguarded archive. */
    method RunRewind(a: Advance) returns (ok: bool)
      requires a.fileId in files
      modifies this
      ensures Rows() == RewindBatch(old(Rows()), a)
      ensures ok == ((a.fileId, a.base + 1) !in old(versions))
    {
      var key := (a.fileId, a.base + 1);
      if key in versions {
        return false;
      }
      versions := versions[key := NewRow(a)];
      if files[a.fileId].currentVersion == a.base {
        files := files[a.fileId := files[a.fileId].(currentVersion := a.base + 1, currentHash := Some(a.hash))];
      }
      label inserted:
      versions := map k | k in versions :: if k.0 == a.fileId && k.1 < a.base + 1 && versions[k].status == Current
        then versions[k].(status := Archived) else versions[k];
      assert versions == AgedVersions(old@inserted(versions), a.fileId, a.base + 1, -1);
      ok := true;
    }
  }

  /** Archiving everything below the new version and then expiring the oldest rows ages each row once. */
  lemma AgedInTwoSteps(before: map<VersionKey, VersionRow>, archived: map<VersionKey, VersionRow>, after: map<VersionKey, VersionRow>,
      fileId: FileId, newVersion: nat, expireThrough: int)
    requires archived == map k | k in before :: if k.0 == fileId && k.1 < newVersion && before[k].status == Current
      then before[k].(status := Archived) else before[k]
    requires after == map k | k in archived :: if k.0 == fileId && k.1 <= expireThrough && archived[k].status != Expired
      then archived[k].(status := Expired) else archived[k]
    ensures after == AgedVersions(before, fileId, newVersion, expireThrough)
  {
    forall k | k in before
      ensures k in after && after[k] == AgedVersions(before, fileId, newVersion, expireThrough)[k]
    {
    }
  }
}
