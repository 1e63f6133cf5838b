/**
 Opening the mailbox database for writing: `LeafGuard` and `open_inner_impl` of
 adapters/store-sqlcipher/src/lib.rs, and the files a failed open leaves behind.

 The directory holds up to four leaves: 0 the main file, 1 its journal, 2 the write-ahead
 log, 3 the shared-memory index.  Any step may fail (`faults`); SQLite may add sidecars but
 removes nothing; no other process touches the directory meanwhile.
 */
module LeafGuard {
  import opened Wrappers

  const OWNER_ONLY := 0x180  // 0o600

  datatype OpenFailure = Corrupted | Storage

  /** `regular` says that the entry is a regular file of the directory's owner. */
  datatype File = File(inode: nat, mode: nat, regular: bool)

  type Dir = map<nat, File>

  datatype Point =
    | SnapshotRead | Preflight | AfterSnapshot | BeforeFreshClaim
    | ClaimCreate | ClaimChmod | AfterFreshClaim | Connect | AfterOpen | Moved | Configure | MaterializeWal
    | AfterWalNormalization | BeforeMigration | Migrate | AfterMigration | PersistWal | Health
    | NormalizeStat(i: nat) | NormalizeChmod(i: nat) | NormalizeOpen(i: nat) | NormalizeHook(i: nat)
    | NormalizeFchmod(i: nat)
    | CleanupAuthority(i: nat) | BeforeRecord(i: nat) | StatRecord(i: nat) | AfterRecord(i: nat)
    | StatRevalidate(i: nat) | AfterRevalidate(i: nat) | StatAuthority(i: nat) | Unlink(i: nat)

  type Faults = set<Point>

  /** `leaf_entry`. */
  function LeafEntry(dir: Dir, i: nat): Result<Option<File>, OpenFailure> {
    if i !in dir then Ok(None) else if dir[i].regular then Ok(Some(dir[i])) else Err(Storage)
  }

  /** A sidecar without a main file: the state the next open refuses as corruption. */
  predicate Orphan(dir: Dir) {
    0 !in dir && (1 in dir || 2 in dir || 3 in dir)
  }

  predicate AllAbsent(dir: Dir) {
    0 !in dir && 1 !in dir && 2 !in dir && 3 !in dir
  }

  /** Every leaf is a regular file that only its owner may use. */
  predicate OwnerOnly(dir: Dir) {
    forall i :: i in dir ==> dir[i].regular && dir[i].mode == OWNER_ONLY
  }

  predicate AllRegular(dir: Dir) {
    forall i :: i in dir ==> dir[i].regular
  }

  /** `LeafGuard::open`: what an open makes of the leaves it finds. */
  function OpenVerdict(dir: Dir): Result<(), OpenFailure> {
    if exists i :: 0 <= i < 4 && i in dir && !dir[i].regular then Err(Storage)
    else if exists i :: i in {0, 2, 3} && i in dir && dir[i].mode != OWNER_ONLY then Err(Storage)
    else if Orphan(dir) then Err(Corrupted)
    else Ok(())
  }

  datatype ExistingPreflight = Stable | MainWithoutSidecars | WalWithoutShm | FreshWal | FreshWalWithoutShm

  predicate PermitsNewSidecars(preflight: ExistingPreflight) {
    preflight.MainWithoutSidecars? || preflight.WalWithoutShm? || preflight.FreshWalWithoutShm?
  }

  /** `preflight_existing`, given what the read-only validation says of the contents. */
  function PreflightExisting(dir: Dir, contents: Result<bool, OpenFailure>): Result<ExistingPreflight, OpenFailure> {
    if 1 in dir || (2 !in dir && 3 in dir) then Err(Corrupted)
    else match contents
      case Err(error) => Err(error)
      case Ok(isNew) =>
        if 2 !in dir then Ok(MainWithoutSidecars)
        else if 3 !in dir then Ok(if isNew then FreshWalWithoutShm else WalWithoutShm)
        else Ok(if isNew then FreshWal else Stable)
  }

  /** The leaves SQLite adds at one point: sidecars that were absent, of any identity and mode. */
  function Grow(dir: Dir, added: Dir): Dir {
    (map i | i in added && 1 <= i <= 3 && i !in dir :: added[i]) + dir
  }

  // ----- Cleanup -----

  /** `remove_unchanged_restrictive_leaf`; the answer says whether cleanup may go on. */
  function RemoveLeaf(dir: Dir, i: nat, main: File, faults: Faults): (Dir, bool) {
    if BeforeRecord(i) in faults || StatRecord(i) in faults || LeafEntry(dir, i).Err? then (dir, false)
    else if i !in dir then (dir, true)
    else if i == 0 && dir[i] != main then (dir, false)
    else if AfterRecord(i) in faults || StatRevalidate(i) in faults || dir[i].mode != OWNER_ONLY then (dir, false)
    else if AfterRevalidate(i) in faults || StatAuthority(i) in faults || LeafEntry(dir, 0) != Ok(Some(main)) then
      (dir, false)
    else if Unlink(i) in faults then (dir, false)
    else (dir - {i}, true)
  }

  /** `cleanup_fresh_candidates` from leaf `i` down to the main file. */
  function CleanFrom(dir: Dir, i: nat, main: File, faults: Faults): Dir {
    if CleanupAuthority(i) in faults || LeafEntry(dir, 0) != Ok(Some(main)) then dir
    else
      var (after, goOn) := RemoveLeaf(dir, i, main, faults);
      if !goOn || i == 0 then after else CleanFrom(after, i - 1, main, faults)
  }

  /** The main file goes last, and only when every sidecar is gone. */
  lemma {:induction false} CleanupNeverOrphans(dir: Dir, i: nat, main: File, faults: Faults)
    requires i <= 3 && 0 in dir
    requires forall j :: i < j <= 3 ==> j !in dir
    ensures var after := CleanFrom(dir, i, main, faults);
      after.Keys <= dir.Keys && (0 in after || AllAbsent(after))
  {
    var (after, goOn) := RemoveLeaf(dir, i, main, faults);
    if goOn && i > 0 && !(CleanupAuthority(i) in faults) {
      CleanupNeverOrphans(after, i - 1, main, faults);
    }
  }

  /** Without faults and with owner-only leaves the cleanup is complete. */
  lemma {:induction false} CleanupIsComplete(dir: Dir, i: nat, main: File, faults: Faults)
    requires i <= 3 && 0 in dir && dir[0] == main && faults == {}
    requires forall j :: j in dir && 0 <= j <= 3 ==> j <= i && dir[j].regular && dir[j].mode == OWNER_ONLY
    ensures AllAbsent(CleanFrom(dir, i, main, faults))
  {
    if i > 0 {
      CleanupIsComplete(RemoveLeaf(dir, i, main, faults).0, i - 1, main, faults);
    }
  }

  // ----- The writer -----

  /** What the unseen parts of an open answer. */
  datatype Script = Script(faults: Faults, contents: Result<bool, OpenFailure>, isNew: bool,
                           atConnect: Dir, atConfigure: Dir, atMaterialize: Dir, atMigrate: Dir)
  {
    /** Nothing fails, and SQLite creates regular files. */
    predicate Calm() {
      faults == {}
      && AllRegular(atConnect) && AllRegular(atConfigure) && AllRegular(atMaterialize) && AllRegular(atMigrate)
    }

    /** SQLite creates no file at all. */
    predicate Quiet() {
      atConnect == atConfigure == atMaterialize == atMigrate == map[]
    }

    /** The names SQLite creates once it works on the connection. */
    function Added(): set<nat> {
      Configured() + if isNew then atMigrate.Keys else {}
    }

    function Configured(): set<nat> {
      atConfigure.Keys + if isNew then atMaterialize.Keys else {}
    }

    /** Nothing fails, the contents are sound, and SQLite creates the log and index that are missing. */
    predicate Supplies(before: Dir) {
      Calm() && contents.Ok? && atConnect == map[] && 1 !in Added() && {2, 3} <= before.Keys + Added()
    }
  }

  class Writer {
    var dir: Dir
    var snapshot: Dir
    var freshMain: Option<File>
    var migrated: bool

    constructor (dir: Dir)
      requires forall i :: i in dir ==> i < 4
      ensures Progress()
      ensures this.dir == dir && snapshot == dir && freshMain == None && !migrated
    {
      this.dir, snapshot, freshMain, migrated := dir, dir, None, false;
    }

    /** Everything the run may have done so far. */
    ghost predicate Progress()
      reads this
    {
      && (forall i :: i in dir ==> i < 4)
      && (freshMain.Some? ==> AllAbsent(snapshot) && freshMain.value.regular && freshMain.value.mode == OWNER_ONLY)
      && (freshMain.Some? ==> 0 in dir && dir[0] == freshMain.value)
      && (forall i :: i in snapshot ==> i in dir && dir[i] == snapshot[i])
      && (!Orphan(snapshot) ==> 0 in dir || AllAbsent(dir))
    }

    /** `claim_fresh_main`: an exclusive create, then an exact mode. */
    method ClaimFreshMain(inode: nat, umasked: nat, faults: Faults) returns (r: Result<(), OpenFailure>)
      requires Progress() && AllAbsent(snapshot) && freshMain == None && AllAbsent(dir)
      modifies this`dir, this`freshMain
      ensures Progress()
      ensures r.Ok? <==> faults !! {ClaimCreate, ClaimChmod}
      ensures r.Ok? ==> freshMain == Some(File(inode, OWNER_ONLY, true)) && dir == old(dir)[0 := freshMain.value]
      ensures r.Err? ==> freshMain == None
      ensures ClaimCreate in faults ==> dir == old(dir)
      ensures faults == {} ==> r.Ok? && AllRegular(dir)
    {
      if ClaimCreate in faults || 0 in dir {
        return Err(Storage);
      }
      dir := dir[0 := File(inode, umasked, true)];
      if ClaimChmod in faults {
        return Err(Storage);
      }
      dir := dir[0 := File(inode, OWNER_ONLY, true)];
      freshMain := Some(dir[0]);
      return Ok(());
    }

    /** `require_main_identity`. */
    method RequireMainIdentity() returns (r: Result<(), OpenFailure>)
      ensures r.Ok? <==>
        if freshMain.Some? then LeafEntry(dir, 0) == Ok(freshMain)
        else 0 in snapshot && LeafEntry(dir, 0) == Ok(Some(snapshot[0]))
      ensures r.Ok? ==> 0 in dir
      ensures Progress() && AllRegular(dir) && (freshMain.Some? || 0 in snapshot) ==> r.Ok?
    {
      var expected := if freshMain.Some? then freshMain
                      else if 0 in snapshot then Some(snapshot[0]) else None;
      if expected.None? || LeafEntry(dir, 0) != Ok(expected) {
        return Err(Storage);
      }
      return Ok(());
    }

    /** A leaf the normalization accepts: regular, and owner-only already or new and brought to that. */
    ghost predicate Normalizable(leaf: File, i: nat, faults: Faults)
      reads this`snapshot
    {
      && leaf.regular
      && (if i in snapshot then leaf.mode == OWNER_ONLY
          else (leaf.mode != OWNER_ONLY ==> NormalizeChmod(i) !in faults)
               && faults !! {NormalizeOpen(i), NormalizeHook(i), NormalizeFchmod(i)})
    }

    /** One turn of `normalize_fresh_leaves`: a leaf absent at the snapshot gets the exact mode. */
    method NormalizeLeaf(i: nat, faults: Faults) returns (r: Result<(), OpenFailure>)
      requires Progress()
      modifies this`dir
      ensures Progress() && dir.Keys == old(dir.Keys)
      ensures forall j :: j in dir ==> dir[j] == if j == i then old(dir)[j].(mode := dir[j].mode) else old(dir)[j]
      ensures r.Ok? <==> NormalizeStat(i) !in faults && (i in old(dir) ==> Normalizable(old(dir)[i], i, faults))
      ensures r.Ok? && i in dir ==> dir[i].regular && dir[i].mode == OWNER_ONLY
      ensures faults == {} && OwnerOnly(snapshot) && (i in old(dir) ==> old(dir)[i].regular) ==> r.Ok?
    {
      if NormalizeStat(i) in faults || LeafEntry(dir, i).Err? {
        return Err(Storage);
      }
      if i !in dir {
        return Ok(());
      }
      if i !in snapshot {
        if dir[i].mode != OWNER_ONLY {
          if NormalizeChmod(i) in faults {
            return Err(Storage);
          }
          dir := dir[i := dir[i].(mode := OWNER_ONLY)];
        }
        if NormalizeOpen(i) in faults || NormalizeHook(i) in faults || NormalizeFchmod(i) in faults {
          return Err(Storage);
        }
        dir := dir[i := dir[i].(mode := OWNER_ONLY)];
      }
      if dir[i].mode != OWNER_ONLY {
        return Err(Storage);
      }
      return Ok(());
    }

    /** `normalize_fresh_leaves`. */
    method NormalizeFreshLeaves(faults: Faults) returns (r: Result<(), OpenFailure>)
      requires Progress()
      modifies this`dir
      ensures Progress() && dir.Keys == old(dir.Keys)
      ensures forall i :: i in dir ==> dir[i] == old(dir)[i].(mode := dir[i].mode)
      ensures r.Ok? ==> OwnerOnly(dir)
      ensures faults == {} && AllRegular(old(dir)) && OwnerOnly(snapshot) && (freshMain.Some? || 0 in snapshot)
        ==> r.Ok?
    {
      for i := 0 to 4
        invariant Progress() && dir.Keys == old(dir.Keys)
        invariant forall j :: j in dir ==> dir[j] == old(dir)[j].(mode := dir[j].mode)
        invariant forall j :: j in dir && j < i ==> dir[j].regular && dir[j].mode == OWNER_ONLY
      {
        r := NormalizeLeaf(i, faults);
        if r.Err? {
          return;
        }
      }
      r := RequireMainIdentity();
    }

    /** `cleanup_fresh_candidates`. */
    method CleanupFreshCandidates(faults: Faults)
      requires Progress()
      modifies this`dir
      ensures dir == if freshMain.None? || migrated then old(dir) else CleanFrom(old(dir), 3, freshMain.value, faults)
      ensures forall i :: i in snapshot ==> i in dir && dir[i] == snapshot[i]
      ensures !Orphan(snapshot) ==> 0 in dir || AllAbsent(dir)
    {
      if freshMain.None? || migrated {
        return;
      }
      var main := freshMain.value;
      ghost var start := dir;
      CleanupNeverOrphans(start, 3, main, faults);
      var i := 3;
      while true
        invariant 0 <= i <= 3
        invariant CleanFrom(start, 3, main, faults) == CleanFrom(dir, i, main, faults)
        decreases i
      {
        if CleanupAuthority(i) in faults || LeafEntry(dir, 0) != Ok(Some(main)) {
          return;
        }
        var (after, goOn) := RemoveLeaf(dir, i, main, faults);
        dir := after;
        if !goOn || i == 0 {
          return;
        }
        i := i - 1;
      }
    }

    /** `require_existing_writer_state`: the leaves an existing database may have gained. */
    method RequireExistingWriterState(preflight: ExistingPreflight) returns (r: Result<(), OpenFailure>)
      requires Progress() && 0 in snapshot && 1 !in snapshot
      requires 2 in snapshot <==> !preflight.MainWithoutSidecars?
      requires 3 in snapshot <==> preflight.Stable? || preflight.FreshWal?
      ensures r.Ok? ==> OwnerOnly(dir) && dir.Keys == {0, 2, 3}
      ensures r.Ok? ==> PermitsNewSidecars(preflight) || dir == snapshot
      ensures OwnerOnly(dir) && dir.Keys == {0, 2, 3} ==> r.Ok?
    {
      if exists i :: 0 <= i < 4 && LeafEntry(dir, i).Err? {
        return Err(Storage);
      }
      var sameMain := LeafEntry(dir, 0) == LeafEntry(snapshot, 0) && LeafEntry(dir, 1) == LeafEntry(snapshot, 1);
      var sameWal := LeafEntry(dir, 2) == LeafEntry(snapshot, 2);
      var sameShm := LeafEntry(dir, 3) == LeafEntry(snapshot, 3);
      var sidecars := match preflight
        case Stable => sameWal && sameShm
        case FreshWal => sameWal && sameShm
        case MainWithoutSidecars => 2 in dir && 3 in dir
        case WalWithoutShm => sameWal && 3 in dir
        case FreshWalWithoutShm => sameWal && 3 in dir;
      if !sameMain || !sidecars || exists i :: i in {0, 2, 3} && i in dir && dir[i].mode != OWNER_ONLY {
        return Err(Storage);
      }
      return Ok(());
    }

    /** SQLite creates sidecars under names that were free. */
    method SqliteAdds(added: Dir)
      requires Progress() && 0 in dir
      modifies this`dir
      ensures Progress() && dir == Grow(old(dir), added) && 0 in dir
      ensures AllRegular(old(dir)) && AllRegular(added) ==> AllRegular(dir)
      ensures added == map[] ==> dir == old(dir)
    {
      dir := Grow(dir, added);
    }

    /** `migrate_fresh` and the normalization around it. */
    method MigrateFresh(script: Script) returns (r: Result<(), OpenFailure>)
      requires Progress() && 0 in dir && !migrated
      modifies this`dir, this`migrated
      ensures Progress() && 0 in dir
      ensures r.Ok? ==> migrated
      ensures migrated ==> OwnerOnly(dir) && Migrate !in script.faults
      ensures script.Calm() && AllRegular(old(dir)) && OwnerOnly(snapshot) && (freshMain.Some? || 0 in snapshot)
        ==> r.Ok? && dir.Keys == Grow(old(dir), script.atMigrate).Keys
      ensures r.Ok? ==> script.faults !! {AfterWalNormalization, BeforeMigration, Migrate, AfterMigration}
    {
      var faults := script.faults;
      if AfterWalNormalization in faults || BeforeMigration in faults || Migrate in faults {
        return Err(Storage);
      }
      SqliteAdds(script.atMigrate);
      var normalized := NormalizeFreshLeaves(faults);
      if normalized.Err? {
        return normalized;
      }
      migrated := true;
      if AfterMigration in faults {
        return Err(Storage);
      }
      return Ok(());
    }

    /** The checks right after the connection is open: an existing database is as it was found. */
    method RecheckLeaves(preflight: Option<ExistingPreflight>, faults: Faults) returns (r: Result<(), OpenFailure>)
      ensures r.Ok? ==> AfterOpen !in faults && Moved !in faults && (preflight.Some? ==> dir == snapshot)
      ensures (faults == {} && Progress() && AllRegular(dir) && (freshMain.Some? || 0 in snapshot)
               && (preflight.Some? ==> dir == snapshot)) ==> r.Ok?
    {
      if AfterOpen in faults {
        return Err(Storage);
      }
      if preflight.Some? && dir != snapshot {
        return Err(Storage);
      }
      if Moved in faults {
        return Err(Storage);
      }
      r := RequireMainIdentity();
    }

    /** Configuring the connection, and the write-ahead log of a new database: the sidecars appear. */
    method ConfigureStorage(script: Script) returns (r: Result<(), OpenFailure>)
      requires Progress() && 0 in dir
      modifies this`dir
      ensures Progress() && 0 in dir
      ensures r.Ok? <==> Configure !in script.faults && (script.isNew ==> MaterializeWal !in script.faults)
      ensures script.Calm() && AllRegular(old(dir)) ==> AllRegular(dir)
      ensures Configure in script.faults ==> r == Err(Corrupted)
      ensures r.Ok? ==> dir.Keys == old(dir).Keys + (script.Configured() * {1, 2, 3})
      ensures script.Quiet() ==> dir == old(dir)
    {
      if Configure in script.faults {
        return Err(Corrupted);
      }
      SqliteAdds(script.atConfigure);
      if script.isNew {
        if MaterializeWal in script.faults {
          return Err(Storage);
        }
        SqliteAdds(script.atMaterialize);
      }
      return Ok(());
    }

    /** The normalization of the sidecars of a new database, or of those an existing one may gain. */
    method NormalizeNewSidecars(preflight: Option<ExistingPreflight>, script: Script)
      returns (r: Result<(), OpenFailure>)
      requires Progress()
      modifies this`dir
      ensures Progress() && dir.Keys == old(dir.Keys)
      ensures r.Ok? && (script.isNew || (preflight.Some? && PermitsNewSidecars(preflight.value))) ==> OwnerOnly(dir)
      ensures !script.isNew && (preflight.Some? ==> !PermitsNewSidecars(preflight.value)) ==> r.Ok? && dir == old(dir)
      ensures script.faults == {} && AllRegular(old(dir)) && OwnerOnly(snapshot) && (freshMain.Some? || 0 in snapshot)
        ==> r.Ok?
      ensures r.Ok? && AllRegular(old(dir)) ==> AllRegular(dir)
    {
      if script.isNew || (preflight.Some? && PermitsNewSidecars(preflight.value)) {
        r := NormalizeFreshLeaves(script.faults);
      } else {
        r := Ok(());
      }
    }

    /** Configuring, growing the sidecars, normalizing them and migrating a new database. */
    method Prepare(preflight: Option<ExistingPreflight>, script: Script) returns (r: Result<(), OpenFailure>)
      requires Progress() && 0 in dir && !migrated
      requires preflight.Some? <==> 0 in snapshot
      modifies this`dir, this`migrated
      ensures Progress() && 0 in dir
      ensures r.Ok? && script.isNew ==> migrated
      ensures migrated ==> script.isNew && Migrate !in script.faults && OwnerOnly(dir)
      ensures script.Calm() && AllRegular(old(dir)) && preflight.None? && freshMain.Some? ==> r.Ok?
      ensures script.Quiet() && !script.isNew && preflight.Some? && !PermitsNewSidecars(preflight.value)
        ==> dir == old(dir) && (script.faults == {} ==> r.Ok?)
      ensures script.Calm() && preflight.Some? && OwnerOnly(snapshot) && old(dir) == snapshot
        ==> r.Ok? && dir.Keys == snapshot.Keys + (script.Added() * {1, 2, 3})
            && (script.isNew || PermitsNewSidecars(preflight.value) ==> OwnerOnly(dir))
      ensures r.Ok? ==> Configure !in script.faults
      ensures r.Ok? && script.isNew ==>
        script.faults !! {MaterializeWal, AfterWalNormalization, BeforeMigration, Migrate, AfterMigration}
    {
      var configured := ConfigureStorage(script);
      if configured.Err? {
        return configured;
      }
      var normalized := NormalizeNewSidecars(preflight, script);
      if normalized.Err? {
        return normalized;
      }
      if script.isNew {
        var done := MigrateFresh(script);
        if done.Err? {
          return done;
        }
      }
      return Ok(());
    }

    /** The part of `open_inner_impl` that works on the open connection. */
    method SetUp(preflight: Option<ExistingPreflight>, script: Script) returns (r: Result<(), OpenFailure>)
      requires Progress() && 0 in dir && !migrated
      requires preflight.Some? <==> 0 in snapshot
      requires preflight.Some? ==> PreflightExisting(snapshot, script.contents) == Ok(preflight.value)
      modifies this`dir, this`migrated
      ensures Progress() && 0 in dir
      ensures r.Ok? && script.isNew ==> migrated
      ensures migrated ==> script.isNew && Migrate !in script.faults
      ensures r.Ok? && (preflight.Some? || script.isNew) ==> OwnerOnly(dir)
      ensures r.Ok? && preflight.Some? ==> dir.Keys == {0, 2, 3}
      ensures script.Calm() && AllRegular(old(dir)) && preflight.None? && freshMain.Some? ==> r.Ok?
      ensures (script.Calm() && script.Quiet() && !script.isNew && OwnerOnly(snapshot) && old(dir) == snapshot
               && preflight.Some? && !PermitsNewSidecars(preflight.value)) ==> r.Ok? && dir == snapshot
      ensures preflight.Some? && script.Supplies(snapshot) && OwnerOnly(snapshot) && old(dir) == snapshot ==> r.Ok?
      ensures r.Ok? ==> script.faults !! {AfterOpen, Moved, Configure, PersistWal, Health}
      ensures r.Ok? && script.isNew ==>
        script.faults !! {MaterializeWal, AfterWalNormalization, BeforeMigration, Migrate, AfterMigration}
    {
      var faults := script.faults;
      var rechecked := RecheckLeaves(preflight, faults);
      if rechecked.Err? {
        return rechecked;
      }
      var prepared := Prepare(preflight, script);
      if prepared.Err? {
        return prepared;
      }
      if PersistWal in faults || Health in faults {
        return Err(Corrupted);
      }
      if preflight.Some? {
        r := RequireExistingWriterState(preflight.value);
      } else {
        r := Ok(());
      }
    }

    /**
     `open_inner_impl`.  Wherever it fails: a directory that was not orphaned is not orphaned
     afterwards, and no leaf that existed before is removed or changed.  `reached` is the
     directory just before the cleanup, which runs exactly when the main file was claimed
     here and not yet migrated.
     */
    method Open(inode: nat, umasked: nat, script: Script)
      returns (r: Result<(), OpenFailure>, ghost reached: Dir)
      requires Progress() && dir == snapshot && freshMain == None && !migrated
      modifies this`dir, this`freshMain, this`migrated
      ensures !Orphan(old(dir)) ==> 0 in dir || AllAbsent(dir)
      ensures forall i :: i in old(dir) ==> i in dir && dir[i] == old(dir)[i]
      ensures Orphan(old(dir)) ==> r.Err? && dir == old(dir)
      ensures dir == if r.Err? && freshMain.Some? && !migrated
                     then CleanFrom(reached, 3, freshMain.value, script.faults) else reached
      ensures freshMain.Some? ==> AllAbsent(old(dir))
      ensures freshMain.Some? ==> 0 in reached && reached[0] == freshMain.value
      ensures freshMain.Some? ==> freshMain.value.regular && freshMain.value.mode == OWNER_ONLY
      ensures forall i :: i in reached ==> i <= 3
      ensures r.Ok? ==> OpenVerdict(old(dir)).Ok? && 0 in dir
      ensures r.Ok? && AllAbsent(old(dir)) ==> freshMain == Some(dir[0])
      ensures r.Ok? && script.isNew ==> migrated
      ensures r.Ok? && (0 in old(dir) || script.isNew) ==> OwnerOnly(dir)
      ensures r.Ok? && 0 in old(dir) ==> dir.Keys == {0, 2, 3}
      ensures script.Calm() && AllAbsent(old(dir)) ==> r.Ok?
      ensures (script.Calm() && script.Quiet() && !script.isNew && script.contents.Ok?
               && old(dir).Keys == {0, 2, 3} && OwnerOnly(old(dir))) ==> r.Ok? && dir == old(dir)
      ensures ((old(dir).Keys == {0} || old(dir).Keys == {0, 2} || old(dir).Keys == {0, 2, 3})
               && OwnerOnly(old(dir)) && script.Supplies(old(dir))) ==> r.Ok?
      ensures SnapshotRead in script.faults ==> r == Err(Storage)
      ensures SnapshotRead !in script.faults && NextOpen(old(dir), script.contents).Err?
        ==> r == NextOpen(old(dir), script.contents)
      ensures r.Ok? ==> script.faults !! {AfterSnapshot, Connect, AfterOpen, Moved, Configure, PersistWal, Health}
      ensures r.Ok? && 0 in old(dir) ==> Preflight !in script.faults
      ensures r.Ok? && AllAbsent(old(dir)) ==>
        script.faults !! {BeforeFreshClaim, ClaimCreate, ClaimChmod, AfterFreshClaim}
      ensures r.Ok? && script.isNew ==>
        script.faults !! {MaterializeWal, AfterWalNormalization, BeforeMigration, Migrate, AfterMigration}
    {
      var faults := script.faults;
      reached := dir;
      if SnapshotRead in faults {
        r := Err(Storage);
        return;
      }
      r := OpenVerdict(dir);
      if r.Err? {
        return;
      }
      var preflight: Option<ExistingPreflight> := None;
      if 0 in snapshot {
        var existing := PreflightExisting(dir, script.contents);
        if existing.Err? || Preflight in faults {
          r := Err(if existing.Err? then existing.error else Storage);
          return;
        }
        preflight := Some(existing.value);
      }
      r := Connected(preflight, inode, umasked, script);
      reached := dir;
      if r.Err? {
        CleanupFreshCandidates(faults);
      }
    }

    /** The claim, the connection and the work on it: what a failed open cleans up after. */
    method Connected(preflight: Option<ExistingPreflight>, inode: nat, umasked: nat, script: Script)
      returns (r: Result<(), OpenFailure>)
      requires Progress() && dir == snapshot && freshMain == None && !migrated
      requires OpenVerdict(snapshot).Ok? && (preflight.Some? <==> 0 in snapshot)
      requires preflight.Some? ==> PreflightExisting(snapshot, script.contents) == Ok(preflight.value)
      modifies this`dir, this`freshMain, this`migrated
      ensures Progress()
      ensures migrated ==> script.isNew && Migrate !in script.faults
      ensures r.Ok? ==> 0 in dir && (AllAbsent(snapshot) ==> freshMain.Some?)
      ensures r.Ok? && AllAbsent(snapshot) ==>
        script.faults !! {BeforeFreshClaim, ClaimCreate, ClaimChmod, AfterFreshClaim}
      ensures r.Ok? && script.isNew ==> migrated
      ensures r.Ok? && (preflight.Some? || script.isNew) ==> OwnerOnly(dir)
      ensures r.Ok? && preflight.Some? ==> dir.Keys == {0, 2, 3}
      ensures script.Calm() && AllAbsent(snapshot) ==> r.Ok?
      ensures (script.Calm() && script.Quiet() && !script.isNew && OwnerOnly(snapshot)
               && preflight.Some? && !PermitsNewSidecars(preflight.value)) ==> r.Ok? && dir == snapshot
      ensures preflight.Some? && script.Supplies(snapshot) && OwnerOnly(snapshot) ==> r.Ok?
      ensures r.Ok? ==> script.faults !! {AfterSnapshot, Connect, AfterOpen, Moved, Configure, PersistWal, Health}
      ensures r.Ok? && script.isNew ==>
        script.faults !! {MaterializeWal, AfterWalNormalization, BeforeMigration, Migrate, AfterMigration}
    {
      var faults := script.faults;
      if AfterSnapshot in faults {
        return Err(Storage);
      }
      if AllAbsent(snapshot) {
        if BeforeFreshClaim in faults {
          return Err(Storage);
        }
        var claimed := ClaimFreshMain(inode, umasked, faults);
        if claimed.Err? || AfterFreshClaim in faults {
          return Err(Storage);
        }
      }
      if Connect in faults {
        return Err(Storage);
      }
      SqliteAdds(script.atConnect);
      r := SetUp(preflight, script);
    }
  }

  // ----- What a failed open leaves for the next one -----

  /** Why the cleanup stops at leaf `i`. */
  predicate Stuck(dir: Dir, i: nat, faults: Faults) {
    CleanupAuthority(i) in faults || BeforeRecord(i) in faults || StatRecord(i) in faults
    || (i in dir
        && (!dir[i].regular || dir[i].mode != OWNER_ONLY || AfterRecord(i) in faults || StatRevalidate(i) in faults
            || AfterRevalidate(i) in faults || StatAuthority(i) in faults || Unlink(i) in faults))
  }

  /** The cleanup stops at leaf `j` or at one it visits before `j`. */
  predicate StopsBy(dir: Dir, top: nat, j: nat, faults: Faults) {
    exists i :: j <= i <= top && Stuck(dir, i, faults)
  }

  /** Exactly what the cleanup leaves: the leaves from the first at which it stops downwards. */
  lemma {:induction false} CleanupLeaves(dir: Dir, top: nat, main: File, faults: Faults)
    requires 0 in dir && dir[0] == main && main.regular && main.mode == OWNER_ONLY
    requires forall i :: i in dir ==> i <= top
    ensures CleanFrom(dir, top, main, faults) == map j | j in dir && StopsBy(dir, top, j, faults) :: dir[j]
    decreases top
  {
    var after := CleanFrom(dir, top, main, faults);
    if Stuck(dir, top, faults) {
      assert forall j :: j in dir ==> StopsBy(dir, top, j, faults);
    } else if top > 0 {
      var rest := dir - {top};
      assert top !in dir ==> rest == dir;
      assert RemoveLeaf(dir, top, main, faults) == (rest, true);
      CleanupLeaves(rest, top - 1, main, faults);
      forall j | j in rest
        ensures StopsBy(dir, top, j, faults) <==> StopsBy(rest, top - 1, j, faults)
      {
        StopsByLower(dir, top, j, faults);
      }
      assert !StopsBy(dir, top, top, faults);
      assert after == map j | j in rest && StopsBy(rest, top - 1, j, faults) :: rest[j];
    }
  }

  lemma StopsByLower(dir: Dir, top: nat, j: nat, faults: Faults)
    requires top > 0 && j < top && !Stuck(dir, top, faults)
    ensures StopsBy(dir, top, j, faults) <==> StopsBy(dir - {top}, top - 1, j, faults)
  {
    assert forall i: nat :: i < top ==> (Stuck(dir, i, faults) <==> Stuck(dir - {top}, i, faults));
    if StopsBy(dir, top, j, faults) {
      var i :| j <= i <= top && Stuck(dir, i, faults);
      assert Stuck(dir - {top}, i, faults);
    }
    if StopsBy(dir - {top}, top - 1, j, faults) {
      var i :| j <= i <= top - 1 && Stuck(dir - {top}, i, faults);
      assert Stuck(dir, i, faults);
    }
  }

  /** The checks of the next open, up to where it would claim or connect. */
  function NextOpen(dir: Dir, contents: Result<bool, OpenFailure>): Result<(), OpenFailure> {
    if OpenVerdict(dir).Err? then OpenVerdict(dir)
    else if 0 !in dir then Ok(())
    else match PreflightExisting(dir, contents)
      case Err(error) => Err(error)
      case Ok(_) => Ok(())
  }

  predicate Acceptable(dir: Dir) {
    forall i :: i in dir ==> dir[i].regular && (i != 1 ==> dir[i].mode == OWNER_ONLY)
  }

  /** Exactly when an open accepts the leaves it finds, and when it reports corruption. */
  lemma NextOpenExactly(dir: Dir, contents: Result<bool, OpenFailure>)
    requires forall i :: i in dir ==> i <= 3
    ensures NextOpen(dir, contents).Ok? <==>
      dir == map[] || (0 in dir && Acceptable(dir) && 1 !in dir && (3 in dir ==> 2 in dir) && contents.Ok?)
    ensures NextOpen(dir, contents) == Err(Corrupted) <==>
      Acceptable(dir)
      && (if 0 in dir then 1 in dir || (3 in dir && 2 !in dir) || contents == Err(Corrupted) else dir != map[])
  {
    assert forall i :: i in dir ==> i in {0, 1, 2, 3};
    assert Orphan(dir) <==> 0 !in dir && dir != map[];
  }

  /**
   Main result in the terms of the next open.  After a failed creation it finds nothing, or
   the main file with the leaves from the first the cleanup could not remove; it never reports
   a missing main file, and it reports corruption if and only if a journal stayed, an index
   stayed without its log, or the contents are corrupt.
   */
  lemma NextOpenAfterCleanup(reached: Dir, main: File, faults: Faults, contents: Result<bool, OpenFailure>)
    requires 0 in reached && reached[0] == main && main.regular && main.mode == OWNER_ONLY
    requires forall i :: i in reached ==> i <= 3
    ensures var left := CleanFrom(reached, 3, main, faults);
      && OpenVerdict(left) != Err(Corrupted)
      && (NextOpen(left, contents).Ok? <==>
            left == map[] || (Acceptable(left) && 1 !in left && (3 in left ==> 2 in left) && contents.Ok?))
      && (NextOpen(left, contents) == Err(Corrupted) <==>
            left != map[] && Acceptable(left)
            && (1 in left || (3 in left && 2 !in left) || contents == Err(Corrupted)))
  {
    var left := CleanFrom(reached, 3, main, faults);
    CleanupLeaves(reached, 3, main, faults);
    CleanupNeverOrphans(reached, 3, main, faults);
    assert forall i :: i in left ==> i <= 3;
    assert 0 !in left ==> left == map[];
    NextOpenExactly(left, contents);
  }

  /** A leaf an open added that the next open can live with: the log, or the index beside it. */
  predicate Tolerable(dir: Dir, i: nat) {
    i in dir && i != 1 && dir[i].regular && dir[i].mode == OWNER_ONLY && (i == 3 ==> 2 in dir)
  }

  /**
   Main result over an existing database, where a failed open cleans nothing up: the next open
   accepts what it left if and only if every leaf it added is tolerable and the contents are fine.
   */
  lemma NextOpenAfterFailure(before: Dir, after: Dir,
                              earlier: Result<bool, OpenFailure>, now: Result<bool, OpenFailure>)
    requires 0 in before && NextOpen(before, earlier).Ok?
    requires forall i :: i in before ==> i in after && after[i] == before[i]
    requires forall i :: i in after ==> i <= 3
    ensures NextOpen(after, now).Ok? <==>
      now.Ok? && forall i :: i in after && i !in before ==> Tolerable(after, i)
  {
    NextOpenExactly(before, earlier);
    NextOpenExactly(after, now);
    if now.Ok? && forall i :: i in after && i !in before ==> Tolerable(after, i) {
      assert !Tolerable(after, 1);
      assert 3 in after && 3 !in before ==> Tolerable(after, 3);
    }
  }

  /** Inputs at which a failed creation leaves what the next open reports as corrupt. */
  lemma JournalCanStay(main: File, journal: File, contents: Result<bool, OpenFailure>)
    requires main.regular && main.mode == OWNER_ONLY && journal.regular && journal.mode == OWNER_ONLY
    ensures var left := CleanFrom(map[0 := main, 1 := journal], 3, main, {Unlink(1)});
      left == map[0 := main, 1 := journal] && NextOpen(left, contents) == Err(Corrupted)
  {
    SidecarStays(main, 1, journal);
    NextOpenExactly(map[0 := main, 1 := journal], contents);
  }

  lemma IndexCanStay(main: File, index: File, contents: Result<bool, OpenFailure>)
    requires main.regular && main.mode == OWNER_ONLY && index.regular && index.mode == OWNER_ONLY
    ensures var left := CleanFrom(map[0 := main, 3 := index], 3, main, {Unlink(3)});
      left == map[0 := main, 3 := index] && NextOpen(left, contents) == Err(Corrupted)
  {
    SidecarStays(main, 3, index);
    NextOpenExactly(map[0 := main, 3 := index], contents);
  }

  lemma SidecarStays(main: File, i: nat, sidecar: File)
    requires 1 <= i <= 3 && main.regular && main.mode == OWNER_ONLY
    ensures CleanFrom(map[0 := main, i := sidecar], 3, main, {Unlink(i)}) == map[0 := main, i := sidecar]
  {
    var dir := map[0 := main, i := sidecar];
    CleanupLeaves(dir, 3, main, {Unlink(i)});
    assert Stuck(dir, i, {Unlink(i)});
    assert forall j :: j in dir ==> StopsBy(dir, 3, j, {Unlink(i)});
  }

  /** A failed open over an existing database can leave a log whose mode it did not come to correct. */
  lemma UncorrectedLogIsRefused(main: File, log: File, contents: Result<bool, OpenFailure>)
    requires main.regular && main.mode == OWNER_ONLY && contents.Ok? && log.mode != OWNER_ONLY
    ensures NextOpen(map[0 := main], contents).Ok? && NextOpen(map[0 := main, 2 := log], contents) == Err(Storage)
  {
    var dir := map[0 := main, 2 := log];
    NextOpenExactly(map[0 := main], contents);
    assert 2 in dir && dir[2].mode != OWNER_ONLY;
  }
}
