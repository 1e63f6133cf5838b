/**
 Validating a write-ahead log without its shared-memory index on a private copy:
 `validate_wal_without_shm_from_private_copy_with_hook` of
 adapters/store-sqlcipher/src/lib.rs, with the stage directory it creates and removes.

 Leaves are numbered as in `LeafGuard`.  `faults` are the steps that fail; the hooks are
 the points between the steps.  No other process touches the directory meanwhile.
 */
module Recovery {
  import opened Wrappers
  import opened LeafGuard

  const RECOVERY_STAGE_LIMIT: nat := 8

  datatype Hook =
    | AfterDirectoryCreate | AfterDirectoryNormalize | AfterMainCopy | AfterWalCopy
    | BeforeReadOnlyOpen | AfterReadOnlyOpen | BeforeOriginalFinalRevalidate | BeforeCleanup

  datatype Trouble =
    | At(hook: Hook)
    | MakeDirectory | StatCreated | ChmodDirectory | StatNormalized | OpenDirectory
    | OpenSource(i: nat) | CreateLeaf(i: nat) | ChmodLeaf(i: nat) | CopyBytes(i: nat)
    | OriginalsRead | VerifyStage | OpenReadOnly | VerifyAgain | OriginalsReadAgain
    | CleanupCheck | CleanupUnlink(i: nat) | CleanupRemove | EmptyRemove

  type Troubles = set<Trouble>

  /** A stage directory and the leaves in it. */
  type Stage = map<int, File>

  /** What validating the copies reports, and the sizes of the originals. */
  datatype Contents = Contents(verdict: Result<bool, OpenFailure>, mainSize: nat, walSize: nat)

  /** `RecoveryLeafKind::accepts_size`. */
  predicate AcceptsSize(i: nat, size: nat) {
    if i == 0 then size >= 512 else size == 0 || size >= 32
  }

  /** The leaves in the stage, and those recorded for the cleanup. */
  datatype Made = Made(stage: Stage, record: Stage)

  type Copied = (Made, Result<(), OpenFailure>)

  /** `copy_recovery_leaf`: a copy whose mode change or stat fails exists but is not recorded. */
  function CopyOne(made: Made, original: File, i: nat, size: nat, copy: File, faults: Troubles): Copied {
    if OpenSource(i) in faults then (made, Err(Storage))
    else if !AcceptsSize(i, size) then (made, Err(Corrupted))
    else if !original.regular || original.mode != OWNER_ONLY || CreateLeaf(i) in faults then (made, Err(Storage))
    else if ChmodLeaf(i) in faults then (made.(stage := made.stage[i := copy]), Err(Storage))
    else (Made(made.stage[i := copy], made.record[i := copy]),
          if CopyBytes(i) in faults then Err(Storage) else Ok(()))
  }

  /** The index of the copies is created empty. */
  function CreateIndex(made: Made, copy: File, faults: Troubles): Copied {
    if CreateLeaf(3) in faults then (made, Err(Storage))
    else if ChmodLeaf(3) in faults then (made.(stage := made.stage[3 := copy]), Err(Storage))
    else (Made(made.stage[3 := copy], made.record[3 := copy]), Ok(()))
  }

  function CopyAll(leaves: Dir, contents: Contents, copies: Stage, faults: Troubles): Copied
    requires 0 in leaves && 2 in leaves && copies.Keys == {0, 2, 3}
  {
    var main := CopyOne(Made(map[], map[]), leaves[0], 0, contents.mainSize, copies[0], faults);
    if main.1.Err? then main
    else if At(AfterMainCopy) in faults then (main.0, Err(Storage))
    else
      var wal := CopyOne(main.0, leaves[2], 2, contents.walSize, copies[2], faults);
      if wal.1.Err? then wal
      else if At(AfterWalCopy) in faults then (wal.0, Err(Storage))
      else CreateIndex(wal.0, copies[3], faults)
  }

  /** The checks on the copies, once all are made. */
  function CheckCopies(contents: Contents, faults: Troubles): Result<bool, OpenFailure> {
    if !(faults !! {OriginalsRead, VerifyStage, At(BeforeReadOnlyOpen), OpenReadOnly, At(AfterReadOnlyOpen)}) then
      Err(Storage)
    else if contents.verdict.Err? then contents.verdict
    else if !(faults !! {VerifyAgain, At(BeforeOriginalFinalRevalidate), OriginalsReadAgain}) then Err(Storage)
    else contents.verdict
  }

  function ValidatedCopies(leaves: Dir, contents: Contents, copies: Stage, faults: Troubles)
    : (Made, Result<bool, OpenFailure>)
    requires 0 in leaves && 2 in leaves && copies.Keys == {0, 2, 3}
  {
    var (made, copied) := CopyAll(leaves, contents, copies, faults);
    (made, match copied
           case Err(error) => Err(error)
           case Ok(_) => CheckCopies(contents, faults))
  }

  /** Unlinking the recorded leaves from `i` down: the first that fails keeps itself and those below. */
  function Unlinked(stage: Stage, i: int, faults: Troubles): (Stage, bool)
    decreases i
  {
    if i < 0 then (stage, true)
    else if i in stage && CleanupUnlink(i) in faults then (stage, false)
    else Unlinked(stage - {i}, i - 1, faults)
  }

  /** `cleanup_recovery_stage`: what stays in the stage, if it stays. */
  function Cleaned(made: Made, faults: Troubles): Option<Stage> {
    if CleanupCheck in faults || made.stage != made.record then Some(made.stage)
    else
      var (stage, done) := Unlinked(made.stage, 3, faults);
      if !done || CleanupRemove in faults then Some(stage) else None
  }

  /** `finish_recovery_validation`: a validation error hides a cleanup error. */
  function FinishValidation(validation: Result<bool, OpenFailure>, hook: Result<(), OpenFailure>,
                            cleanup: Result<(), OpenFailure>): Result<bool, OpenFailure>
  {
    match validation
    case Err(error) => Err(error)
    case Ok(isNew) =>
      if hook.Err? then Err(hook.error) else if cleanup.Err? then Err(cleanup.error) else Ok(isNew)
  }

  /** The first stage name of eight that is free. */
  function FreeSlot(stages: map<nat, Stage>, slot: nat): Option<nat>
    requires slot <= RECOVERY_STAGE_LIMIT
    decreases RECOVERY_STAGE_LIMIT - slot
  {
    if slot == RECOVERY_STAGE_LIMIT then None
    else if slot !in stages then Some(slot)
    else FreeSlot(stages, slot + 1)
  }

  predicate SetUpFails(faults: Troubles) {
    !(faults !! {At(AfterDirectoryCreate), ChmodDirectory, StatNormalized, At(AfterDirectoryNormalize), OpenDirectory})
  }

  /** `create_recovery_stage`: what it leaves in the parent, and the stage when it succeeds. */
  function Created(stages: map<nat, Stage>, faults: Troubles): (map<nat, Stage>, Result<nat, OpenFailure>) {
    var slot := FreeSlot(stages, 0);
    if MakeDirectory in faults || slot.None? then (stages, Err(Storage))
    else if StatCreated in faults then (stages[slot.value := map[]], Err(Storage))
    else if SetUpFails(faults) then
      (if EmptyRemove in faults then stages[slot.value := map[]] else stages, Err(Storage))
    else (stages[slot.value := map[]], Ok(slot.value))
  }

  datatype Outcome = Outcome(stages: map<nat, Stage>, answer: Result<bool, OpenFailure>,
                             validation: Result<bool, OpenFailure>)

  /** The whole validation: the parent it leaves, its answer, and what the validation alone said. */
  function Validated(leaves: Dir, stages: map<nat, Stage>, contents: Contents, copies: Stage, faults: Troubles): Outcome
    requires copies.Keys == {0, 2, 3}
  {
    if 0 !in leaves || 2 !in leaves then Outcome(stages, Err(Storage), Err(Storage))
    else
      var (staged, slot) := Created(stages, faults);
      match slot
      case Err(error) => Outcome(staged, Err(error), Err(error))
      case Ok(slot) =>
        var (made, validation) := ValidatedCopies(leaves, contents, copies, faults);
        var left := Cleaned(made, faults);
        Outcome(if left.Some? then staged[slot := left.value] else staged - {slot},
                FinishValidation(validation, if At(BeforeCleanup) in faults then Err(Storage) else Ok(()),
                                 if left.Some? then Err(Storage) else Ok(())),
                validation)
  }

  class Parent {
    var leaves: Dir
    var stages: map<nat, Stage>

    constructor (leaves: Dir, stages: map<nat, Stage>)
      ensures this.leaves == leaves && this.stages == stages
    {
      this.leaves, this.stages := leaves, stages;
    }

    /** `create_recovery_stage`: the first free name of eight. */
    method CreateStage(faults: Troubles) returns (r: Result<nat, OpenFailure>, tried: nat)
      modifies this`stages
      ensures (stages, r) == Created(old(stages), faults)
      ensures tried <= 8
    {
      tried := 0;
      for slot := 0 to RECOVERY_STAGE_LIMIT
        invariant tried == slot && stages == old(stages)
        invariant FreeSlot(stages, 0) == FreeSlot(stages, slot)
        invariant slot > 0 ==> MakeDirectory !in faults
      {
        tried := tried + 1;
        if MakeDirectory in faults {
          return Err(Storage), tried;
        }
        if slot in stages {
          continue;
        }
        stages := stages[slot := map[]];
        if StatCreated in faults {
          return Err(Storage), tried;
        }
        var ok := SetUpStage(faults);
        if ok {
          return Ok(slot), tried;
        }
        if EmptyRemove !in faults {
          stages := stages - {slot};
          assert stages == old(stages);
        }
        return Err(Storage), tried;
      }
      return Err(Storage), tried;
    }

    method SetUpStage(faults: Troubles) returns (ok: bool)
      ensures ok <==> !SetUpFails(faults)
    {
      ok := At(AfterDirectoryCreate) !in faults && ChmodDirectory !in faults && StatNormalized !in faults
         && At(AfterDirectoryNormalize) !in faults && OpenDirectory !in faults;
    }

    method AddLeaf(slot: nat, i: nat, copy: File)
      requires slot in stages
      modifies this`stages
      ensures stages == old(stages)[slot := old(stages)[slot][i := copy]]
    {
      var stage: Stage := stages[slot];
      stage := stage[i := copy];
      stages := stages[slot := stage];
    }

    /** `copy_recovery_leaf`; `record` is what the cleanup will look for. */
    method CopyLeaf(slot: nat, i: nat, size: nat, copy: File, faults: Troubles, recorded: Stage)
      returns (r: Result<(), OpenFailure>, record: Stage)
      requires slot in stages && i in leaves
      modifies this`stages
      ensures slot in stages && stages == old(stages)[slot := stages[slot]]
      ensures (Made(stages[slot], record), r)
        == CopyOne(Made(old(stages)[slot], recorded), leaves[i], i, size, copy, faults)
    {
      record := recorded;
      if OpenSource(i) in faults {
        return Err(Storage), record;
      }
      if !AcceptsSize(i, size) {
        return Err(Corrupted), record;
      }
      if !leaves[i].regular || leaves[i].mode != OWNER_ONLY || CreateLeaf(i) in faults {
        return Err(Storage), record;
      }
      AddLeaf(slot, i, copy);
      if ChmodLeaf(i) in faults {
        return Err(Storage), record;
      }
      record := record[i := copy];
      if CopyBytes(i) in faults {
        return Err(Storage), record;
      }
      return Ok(()), record;
    }

    /** The copies of the main file and the log, and the new index. */
    method MakeCopies(slot: nat, contents: Contents, copies: Stage, faults: Troubles)
      returns (r: Result<(), OpenFailure>, record: Stage)
      requires slot in stages && stages[slot] == map[]
      requires 0 in leaves && 2 in leaves && copies.Keys == {0, 2, 3}
      modifies this`stages
      ensures slot in stages && stages == old(stages)[slot := stages[slot]]
      ensures (Made(stages[slot], record), r) == CopyAll(leaves, contents, copies, faults)
    {
      record := map[];
      r, record := CopyLeaf(slot, 0, contents.mainSize, copies[0], faults, record);
      if r.Err? {
        return;
      }
      if At(AfterMainCopy) in faults {
        return Err(Storage), record;
      }
      r, record := CopyLeaf(slot, 2, contents.walSize, copies[2], faults, record);
      if r.Err? {
        return;
      }
      if At(AfterWalCopy) in faults || CreateLeaf(3) in faults {
        return Err(Storage), record;
      }
      AddLeaf(slot, 3, copies[3]);
      if ChmodLeaf(3) in faults {
        return Err(Storage), record;
      }
      record := record[3 := copies[3]];
    }

    /** The validation on the copies; `record` is what it reports as created. */
    method ValidateCopies(slot: nat, contents: Contents, copies: Stage, faults: Troubles)
      returns (r: Result<bool, OpenFailure>, record: Stage)
      requires slot in stages && stages[slot] == map[]
      requires 0 in leaves && 2 in leaves && copies.Keys == {0, 2, 3}
      modifies this`stages
      ensures slot in stages && stages == old(stages)[slot := stages[slot]]
      ensures (Made(stages[slot], record), r) == ValidatedCopies(leaves, contents, copies, faults)
    {
      var copied: Result<(), OpenFailure>;
      copied, record := MakeCopies(slot, contents, copies, faults);
      if copied.Err? {
        return Err(copied.error), record;
      }
      if OriginalsRead in faults || VerifyStage in faults || At(BeforeReadOnlyOpen) in faults
         || OpenReadOnly in faults || At(AfterReadOnlyOpen) in faults {
        return Err(Storage), record;
      }
      if contents.verdict.Err? {
        return contents.verdict, record;
      }
      if VerifyAgain in faults || At(BeforeOriginalFinalRevalidate) in faults || OriginalsReadAgain in faults {
        return Err(Storage), record;
      }
      return contents.verdict, record;
    }

    /** `cleanup_recovery_stage`: only the recorded leaves, newest first, then the directory. */
    method CleanupStage(slot: nat, record: Stage, faults: Troubles) returns (r: Result<(), OpenFailure>)
      requires slot in stages && forall i :: i in record ==> 0 <= i <= 3
      modifies this`stages
      ensures var left := Cleaned(Made(old(stages)[slot], record), faults);
        && stages == (if left.Some? then old(stages)[slot := left.value] else old(stages) - {slot})
        && r == (if left.Some? then Err(Storage) else Ok(()))
    {
      if CleanupCheck in faults || stages[slot] != record {
        assert old(stages)[slot := stages[slot]] == stages;
        return Err(Storage);
      }
      var stage: Stage := stages[slot];
      var i := 3;
      while i >= 0
        invariant -1 <= i <= 3
        invariant slot in stages && stages == old(stages)[slot := stage]
        invariant Unlinked(record, 3, faults) == Unlinked(stage, i, faults)
        invariant stage == map j | j in record && j <= i :: record[j]
        decreases i
      {
        if i in record {
          if CleanupUnlink(i) in faults {
            return Err(Storage);
          }
          stage := stage - {i};
          stages := stages[slot := stage];
        } else {
          assert stage - {i} == stage;
        }
        i := i - 1;
      }
      if CleanupRemove in faults {
        return Err(Storage);
      }
      stages := stages - {slot};
      assert stages == old(stages) - {slot};
      return Ok(());
    }

    /** The whole validation; `tried` counts the stage names it tried to create. */
    method Validate(contents: Contents, copies: Stage, faults: Troubles)
      returns (r: Result<bool, OpenFailure>, validation: Result<bool, OpenFailure>, tried: nat)
      requires copies.Keys == {0, 2, 3}
      modifies this`stages
      ensures leaves == old(leaves)
      ensures Outcome(stages, r, validation) == Validated(leaves, old(stages), contents, copies, faults)
      ensures tried <= 8
    {
      if 0 !in leaves || 2 !in leaves {
        return Err(Storage), Err(Storage), 0;
      }
      var created: Result<nat, OpenFailure>;
      created, tried := CreateStage(faults);
      if created.Err? {
        return Err(created.error), Err(created.error), tried;
      }
      var slot := created.value;
      var record: Stage;
      validation, record := ValidateCopies(slot, contents, copies, faults);
      MadeLeaves(leaves, contents, copies, faults);
      var hook: Result<(), OpenFailure> := if At(BeforeCleanup) in faults then Err(Storage) else Ok(());
      var cleanup := CleanupStage(slot, record, faults);
      r := FinishValidation(validation, hook, cleanup);
    }
  }

  // ----- What stays behind -----

  /** The validation gets as far as creating the copy of the main file, of the log, and the index. */
  predicate MakesMain(leaves: Dir, contents: Contents, faults: Troubles)
    requires 0 in leaves
  {
    Copyable(leaves[0], 0, contents.mainSize, faults)
  }

  predicate MakesLog(leaves: Dir, contents: Contents, faults: Troubles)
    requires 0 in leaves && 2 in leaves
  {
    && MakesMain(leaves, contents, faults) && faults !! {ChmodLeaf(0), CopyBytes(0), At(AfterMainCopy)}
    && Copyable(leaves[2], 2, contents.walSize, faults)
  }

  predicate MakesIndex(leaves: Dir, contents: Contents, faults: Troubles)
    requires 0 in leaves && 2 in leaves
  {
    MakesLog(leaves, contents, faults) && faults !! {ChmodLeaf(2), CopyBytes(2), At(AfterWalCopy), CreateLeaf(3)}
  }

  predicate Makes(leaves: Dir, contents: Contents, faults: Troubles, i: int)
    requires 0 in leaves && 2 in leaves
  {
    if i == 0 then MakesMain(leaves, contents, faults)
    else if i == 2 then MakesLog(leaves, contents, faults)
    else i == 3 && MakesIndex(leaves, contents, faults)
  }

  predicate Copyable(original: File, i: nat, size: nat, faults: Troubles) {
    && OpenSource(i) !in faults && AcceptsSize(i, size) && CreateLeaf(i) !in faults
    && original.regular && original.mode == OWNER_ONLY
  }

  /** A leaf is created whose mode change or stat then fails, so that nothing records it. */
  predicate Unrecorded(leaves: Dir, contents: Contents, faults: Troubles)
    requires 0 in leaves && 2 in leaves
  {
    exists i: nat :: i <= 3 && Makes(leaves, contents, faults, i) && ChmodLeaf(i) in faults
  }

  /** Where each leaf is: in the stage when it is created, in the record unless its mode change failed. */
  lemma MadeAt(leaves: Dir, contents: Contents, copies: Stage, faults: Troubles, i: int)
    requires 0 in leaves && 2 in leaves && copies.Keys == {0, 2, 3}
    ensures var made := CopyAll(leaves, contents, copies, faults).0;
      && (i in made.stage <==> Makes(leaves, contents, faults, i))
      && (i in made.stage ==> i in copies && made.stage[i] == copies[i])
      && (i in made.record <==> Makes(leaves, contents, faults, i) && ChmodLeaf(i) !in faults)
      && (i in made.record ==> i in copies && made.record[i] == copies[i])
  {
  }

  /** The stage holds the leaves created; the record misses one exactly when its mode change failed. */
  lemma MadeLeaves(leaves: Dir, contents: Contents, copies: Stage, faults: Troubles)
    requires 0 in leaves && 2 in leaves && copies.Keys == {0, 2, 3}
    ensures var made := CopyAll(leaves, contents, copies, faults).0;
      && made.stage == (map i | i in copies && Makes(leaves, contents, faults, i) :: copies[i])
      && (made.stage == made.record <==> !Unrecorded(leaves, contents, faults))
      && made.record.Keys <= made.stage.Keys <= {0, 2, 3}
  {
    var made := CopyAll(leaves, contents, copies, faults).0;
    forall i
      ensures i in made.stage <==> Makes(leaves, contents, faults, i)
      ensures i in made.stage ==> i in copies && made.stage[i] == copies[i]
      ensures i in made.record <==> Makes(leaves, contents, faults, i) && ChmodLeaf(i) !in faults
      ensures i in made.record ==> i in copies && made.record[i] == copies[i]
    {
      MadeAt(leaves, contents, copies, faults, i);
    }
    if Unrecorded(leaves, contents, faults) {
      var i: nat :| i <= 3 && Makes(leaves, contents, faults, i) && ChmodLeaf(i) in faults;
      assert i in made.stage && i !in made.record;
    } else {
      assert forall i :: i in made.stage ==> i in {0, 2, 3};
      assert made.stage == made.record;
    }
  }

  lemma BlocksBelow(stage: Stage, i: nat, j: int, faults: Troubles)
    requires i !in stage || CleanupUnlink(i) !in faults
    ensures Blocks(stage - {i}, j, faults) <==> Blocks(stage, j, faults)
  {
    if Blocks(stage, j, faults) {
      var k :| k in stage && j <= k && CleanupUnlink(k) in faults;
      assert k in stage - {i};
    }
  }

  lemma {:induction false} UnlinkedSpec(stage: Stage, i: int, faults: Troubles)
    requires forall j :: j in stage ==> 0 <= j <= i
    ensures var (left, done) := Unlinked(stage, i, faults);
      && (forall j :: j in left <==> j in stage && Blocks(stage, j, faults))
      && (forall j :: j in left ==> left[j] == stage[j])
      && (done <==> forall j :: j in stage ==> CleanupUnlink(j) !in faults)
    decreases i
  {
    if i >= 0 {
      if i in stage && CleanupUnlink(i) in faults {
        assert forall j :: j in stage ==> Blocks(stage, j, faults);
      } else {
        var rest := stage - {i};
        UnlinkedSpec(rest, i - 1, faults);
        forall j
          ensures Blocks(rest, j, faults) <==> Blocks(stage, j, faults)
        {
          BlocksBelow(stage, i, j, faults);
        }
        assert !Blocks(stage, i, faults);
      }
    }
  }

  /** A leaf at or above `j` cannot be unlinked, so the cleanup never gets below it. */
  predicate Blocks(stage: Stage, j: int, faults: Troubles) {
    exists i :: i in stage && j <= i && CleanupUnlink(i) in faults
  }

  /** A stage directory is made. */
  predicate StageMade(leaves: Dir, stages: map<nat, Stage>, faults: Troubles) {
    0 in leaves && 2 in leaves && MakeDirectory !in faults && FreeSlot(stages, 0).Some?
  }

  /** An unlink of the cleanup fails at leaf `j` or at one it visits before `j`. */
  predicate UnlinkStops(leaves: Dir, contents: Contents, faults: Troubles, j: int)
    requires 0 in leaves && 2 in leaves
  {
    exists i: nat :: j <= i <= 3 && Makes(leaves, contents, faults, i) && CleanupUnlink(i) in faults
  }

  /** The cleanup of a stage with these leaves fails. */
  predicate CleanupFails(leaves: Dir, contents: Contents, faults: Troubles)
    requires 0 in leaves && 2 in leaves
  {
    CleanupCheck in faults || CleanupRemove in faults || UnlinkStops(leaves, contents, faults, 0)
  }

  /** The exact condition under which a stage stays behind. */
  predicate Strands(leaves: Dir, stages: map<nat, Stage>, contents: Contents, faults: Troubles) {
    && StageMade(leaves, stages, faults)
    && (if StatCreated in faults then true
        else if SetUpFails(faults) then EmptyRemove in faults
        else Unrecorded(leaves, contents, faults) || CleanupFails(leaves, contents, faults))
  }

  /** The leaves that stay in it. */
  predicate Stays(leaves: Dir, contents: Contents, faults: Troubles, j: int)
    requires 0 in leaves && 2 in leaves
  {
    && StatCreated !in faults && !SetUpFails(faults) && Makes(leaves, contents, faults, j)
    && (Unrecorded(leaves, contents, faults) || CleanupCheck in faults || UnlinkStops(leaves, contents, faults, j))
  }

  lemma BlocksIsReached(leaves: Dir, contents: Contents, stage: Stage, faults: Troubles, j: int)
    requires 0 in leaves && 2 in leaves
    requires forall i :: i in stage <==> Makes(leaves, contents, faults, i)
    ensures Blocks(stage, j, faults) <==> UnlinkStops(leaves, contents, faults, j)
  {
    if Blocks(stage, j, faults) {
      var i :| i in stage && j <= i && CleanupUnlink(i) in faults;
      var n: nat := i;
      assert j <= n <= 3 && Makes(leaves, contents, faults, n);
    }
    if UnlinkStops(leaves, contents, faults, j) {
      var i: nat :| j <= i <= 3 && Makes(leaves, contents, faults, i) && CleanupUnlink(i) in faults;
      assert i in stage;
    }
  }

  /** The cleanup of a stage it can check: what the failed unlink keeps. */
  lemma UnlinkedLeaves(leaves: Dir, contents: Contents, stage: Stage, faults: Troubles)
    requires 0 in leaves && 2 in leaves
    requires forall i :: i in stage <==> Makes(leaves, contents, faults, i)
    ensures var (left, done) := Unlinked(stage, 3, faults);
      && (forall j :: j in left <==> j in stage && UnlinkStops(leaves, contents, faults, j))
      && (forall j :: j in left ==> left[j] == stage[j])
      && (done <==> !UnlinkStops(leaves, contents, faults, 0))
  {
    assert forall i :: i in stage ==> i in {0, 2, 3};
    UnlinkedSpec(stage, 3, faults);
    forall j
      ensures Blocks(stage, j, faults) <==> UnlinkStops(leaves, contents, faults, j)
    {
      BlocksIsReached(leaves, contents, stage, faults, j);
    }
    BlocksFromZero(stage, faults);
  }

  lemma BlocksFromZero(stage: Stage, faults: Troubles)
    requires forall i :: i in stage ==> i >= 0
    ensures Blocks(stage, 0, faults) <==> exists j :: j in stage && CleanupUnlink(j) in faults
  {
    if j :| j in stage && CleanupUnlink(j) in faults {
      assert 0 <= j;
    }
  }

  lemma CleanedLeaves(leaves: Dir, contents: Contents, made: Made, faults: Troubles)
    requires 0 in leaves && 2 in leaves && StatCreated !in faults && !SetUpFails(faults)
    requires forall i :: i in made.stage <==> Makes(leaves, contents, faults, i)
    requires made.stage == made.record <==> !Unrecorded(leaves, contents, faults)
    ensures var left := Cleaned(made, faults);
      && (left.Some? <==> Unrecorded(leaves, contents, faults) || CleanupFails(leaves, contents, faults))
      && (left.Some? ==>
            (forall j :: j in left.value <==> Stays(leaves, contents, faults, j))
            && (forall j :: j in left.value ==> j in made.stage && left.value[j] == made.stage[j]))
  {
    UnlinkedLeaves(leaves, contents, made.stage, faults);
    assert forall j :: UnlinkStops(leaves, contents, faults, j) && 0 <= j ==> UnlinkStops(leaves, contents, faults, 0);
  }

  lemma CleanedSpec(leaves: Dir, contents: Contents, copies: Stage, faults: Troubles)
    requires 0 in leaves && 2 in leaves && copies.Keys == {0, 2, 3}
    requires StatCreated !in faults && !SetUpFails(faults)
    ensures var left := Cleaned(CopyAll(leaves, contents, copies, faults).0, faults);
      && (left.Some? <==> Unrecorded(leaves, contents, faults) || CleanupFails(leaves, contents, faults))
      && (left.Some? ==> left.value == map j | j in copies && Stays(leaves, contents, faults, j) :: copies[j])
  {
    MadeLeaves(leaves, contents, copies, faults);
    CleanedLeaves(leaves, contents, CopyAll(leaves, contents, copies, faults).0, faults);
  }

  /**
   Main result: the parent directory changes if and only if a stranding step is reached, and
   then by one stage, under the first free name, with exactly the leaves that stay.
   */
  lemma ValidationStrandsExactly(leaves: Dir, stages: map<nat, Stage>, contents: Contents, copies: Stage,
                                 faults: Troubles)
    requires copies.Keys == {0, 2, 3}
    ensures var after := Validated(leaves, stages, contents, copies, faults).stages;
      && (after != stages <==> Strands(leaves, stages, contents, faults))
      && (Strands(leaves, stages, contents, faults) ==>
            after == stages[FreeSlot(stages, 0).value :=
                              map j | j in copies && Stays(leaves, contents, faults, j) :: copies[j]])
  {
    if StageMade(leaves, stages, faults) {
      FreeSlotIsFree(stages, 0);
      var slot := FreeSlot(stages, 0).value;
      assert stages[slot := map[]] - {slot} == stages;
      if StatCreated !in faults && !SetUpFails(faults) {
        CleanedSpec(leaves, contents, copies, faults);
      } else {
        assert forall j :: j in copies ==> !Stays(leaves, contents, faults, j);
      }
    }
  }

  lemma {:induction false} FreeSlotIsFree(stages: map<nat, Stage>, slot: nat)
    requires slot <= RECOVERY_STAGE_LIMIT
    ensures match FreeSlot(stages, slot)
      case Some(free) =>
        slot <= free < 8 && free !in stages && forall s :: slot <= s < free ==> s in stages
      case None => forall s :: slot <= s < 8 ==> s in stages
    decreases RECOVERY_STAGE_LIMIT - slot
  {
    if slot < RECOVERY_STAGE_LIMIT {
      FreeSlotIsFree(stages, slot + 1);
    }
  }

  /**
   Main result: a validation error is the answer whatever the cleanup does; a verdict is given
   only after a complete cleanup; and without failures the first unacceptable original, else
   the contents, decides.
   */
  lemma ValidationAnswers(leaves: Dir, stages: map<nat, Stage>, contents: Contents, copies: Stage, faults: Troubles)
    requires copies.Keys == {0, 2, 3}
    ensures var outcome := Validated(leaves, stages, contents, copies, faults);
      && (outcome.validation.Err? ==> outcome.answer == outcome.validation)
      && (outcome.answer.Ok? ==>
            outcome.answer == outcome.validation == contents.verdict && outcome.stages == stages
            && AcceptsSize(0, contents.mainSize) && AcceptsSize(2, contents.walSize))
      && (faults == {} && StageMade(leaves, stages, faults) ==>
            outcome.answer == FirstObjection(leaves[0], leaves[2], contents))
  {
    FreeSlotIsFree(stages, 0);
    if StageMade(leaves, stages, faults) && StatCreated !in faults && !SetUpFails(faults) {
      var slot := FreeSlot(stages, 0).value;
      assert stages[slot := map[]] - {slot} == stages;
      CleanedSpec(leaves, contents, copies, faults);
    }
  }

  /** Every check on the copies, and the hook before the cleanup, passes. */
  predicate ChecksPass(faults: Troubles) {
    faults !! {OriginalsRead, VerifyStage, At(BeforeReadOnlyOpen), OpenReadOnly, At(AfterReadOnlyOpen), VerifyAgain,
               At(BeforeOriginalFinalRevalidate), OriginalsReadAgain, At(BeforeCleanup)}
  }

  /** Main result: a verdict is given exactly when every step is reached and none of them fails. */
  lemma VerdictGivenExactly(leaves: Dir, stages: map<nat, Stage>, contents: Contents, copies: Stage, faults: Troubles)
    requires copies.Keys == {0, 2, 3}
    ensures Validated(leaves, stages, contents, copies, faults).answer.Ok? <==>
      && StageMade(leaves, stages, faults) && StatCreated !in faults && !SetUpFails(faults)
      && MakesIndex(leaves, contents, faults) && ChmodLeaf(3) !in faults
      && ChecksPass(faults) && contents.verdict.Ok? && !CleanupFails(leaves, contents, faults)
  {
    if StageMade(leaves, stages, faults) && StatCreated !in faults && !SetUpFails(faults) {
      CleanedSpec(leaves, contents, copies, faults);
      CopiedExactly(leaves, contents, copies, faults);
      if MakesIndex(leaves, contents, faults) && ChmodLeaf(3) !in faults {
        assert !Unrecorded(leaves, contents, faults);
      }
    }
  }

  lemma CopiedExactly(leaves: Dir, contents: Contents, copies: Stage, faults: Troubles)
    requires 0 in leaves && 2 in leaves && copies.Keys == {0, 2, 3}
    ensures CopyAll(leaves, contents, copies, faults).1.Ok? <==>
      MakesIndex(leaves, contents, faults) && ChmodLeaf(3) !in faults
  {
  }

  function FirstObjection(main: File, wal: File, contents: Contents): Result<bool, OpenFailure> {
    if contents.mainSize < 512 then Err(Corrupted)
    else if !main.regular || main.mode != OWNER_ONLY then Err(Storage)
    else if 0 < contents.walSize < 32 then Err(Corrupted)
    else if !wal.regular || wal.mode != OWNER_ONLY then Err(Storage)
    else contents.verdict
  }

  // ----- An input for each kind of stranding step -----

  predicate Sound(leaves: Dir, contents: Contents) {
    && 0 in leaves && leaves[0].regular && leaves[0].mode == OWNER_ONLY && AcceptsSize(0, contents.mainSize)
    && 2 in leaves && leaves[2].regular && leaves[2].mode == OWNER_ONLY && AcceptsSize(2, contents.walSize)
  }

  /** The stat right after the stage is created: an empty stage stays. */
  lemma FailedStatStrands(leaves: Dir, contents: Contents, copies: Stage)
    requires Sound(leaves, contents) && copies.Keys == {0, 2, 3}
    ensures Validated(leaves, map[], contents, copies, {StatCreated}).stages == map[0 := map[]]
  {
    ValidationStrandsExactly(leaves, map[], contents, copies, {StatCreated});
  }

  lemma SoundMakes(leaves: Dir, contents: Contents, faults: Troubles, i: int)
    requires Sound(leaves, contents) && i in {0, 2, 3} && (faults == {ChmodLeaf(i)} || faults == {CleanupUnlink(i)})
    ensures forall j :: j in {0, 2, 3} && j <= i ==> Makes(leaves, contents, faults, j)
    ensures forall j :: j in {0, 2, 3} && j > i ==> Makes(leaves, contents, faults, j) == (ChmodLeaf(i) !in faults)
  {
    assert Makes(leaves, contents, faults, 0);
    assert i != 0 ==> Makes(leaves, contents, faults, 2);
    assert i == 3 ==> Makes(leaves, contents, faults, 3);
  }

  lemma SoundStays(leaves: Dir, contents: Contents, faults: Troubles, i: int)
    requires Sound(leaves, contents) && i in {0, 2, 3} && (faults == {ChmodLeaf(i)} || faults == {CleanupUnlink(i)})
    ensures forall j :: j in {0, 2, 3} ==> (Stays(leaves, contents, faults, j) <==> j <= i)
    ensures Strands(leaves, map[], contents, faults) && FreeSlot(map[], 0) == Some(0)
  {
    SoundMakes(leaves, contents, faults, i);
    var n: nat := i;
    assert Makes(leaves, contents, faults, n);
  }

  /** The mode change of a leaf just created: that leaf and those before it stay. */
  lemma FailedModeChangeStrands(leaves: Dir, contents: Contents, copies: Stage, i: int)
    requires Sound(leaves, contents) && copies.Keys == {0, 2, 3} && i in {0, 2, 3}
    ensures Validated(leaves, map[], contents, copies, {ChmodLeaf(i)}).stages
      == map[0 := map j | j in copies && j <= i :: copies[j]]
  {
    SoundStays(leaves, contents, {ChmodLeaf(i)}, i);
    ValidationStrandsExactly(leaves, map[], contents, copies, {ChmodLeaf(i)});
    assert (map j | j in copies && Stays(leaves, contents, {ChmodLeaf(i)}, j) :: copies[j])
      == (map j | j in copies && j <= i :: copies[j]);
  }

  /** An unlink of the cleanup: that leaf and those not yet visited stay. */
  lemma FailedUnlinkStrands(leaves: Dir, contents: Contents, copies: Stage, i: int)
    requires Sound(leaves, contents) && copies.Keys == {0, 2, 3} && i in {0, 2, 3}
    ensures Validated(leaves, map[], contents, copies, {CleanupUnlink(i)}).stages
      == map[0 := map j | j in copies && j <= i :: copies[j]]
  {
    SoundStays(leaves, contents, {CleanupUnlink(i)}, i);
    ValidationStrandsExactly(leaves, map[], contents, copies, {CleanupUnlink(i)});
    assert (map j | j in copies && Stays(leaves, contents, {CleanupUnlink(i)}, j) :: copies[j])
      == (map j | j in copies && j <= i :: copies[j]);
  }
}
