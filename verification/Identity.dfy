/** The account identity: the stored row, its fail-closed reading, and the gate's decision. */
module Identity {
  import opened Wrappers

  type Hash = string

  const IDENTITY_ALGO_VERSION := 2

  /** Store failures a transaction can answer. */
  datatype StoreError = Storage | Corrupted | IdentityChanged | IdentityRaced

  /**
   The `account_identity` row.  `hash` is `None` when the column is not a 32-byte blob and
   `version` is `None` when the column is not an integer.
   */
  datatype IdentityRow = NoRow | IdentityRow(hash: Option<Hash>, version: Option<int>)

  /** `read_recorded_identity`: an unreadable row is an error, never "no identity yet". */
  function ReadIdentity(row: IdentityRow): Result<Option<Hash>, StoreError> {
    match row
    case NoRow => Ok(None)
    case IdentityRow(Some(hash), Some(version)) =>
      if version == IDENTITY_ALGO_VERSION then Ok(Some(hash)) else Err(Corrupted)
    case _ => Err(Corrupted)
  }

  /** Only a missing row reads as "no identity"; only a 32-byte hash of this version reads as one. */
  lemma ReadingFailsClosed(row: IdentityRow)
    ensures ReadIdentity(row) == Ok(None) <==> row == NoRow
    ensures forall hash ::
      ReadIdentity(row) == Ok(Some(hash)) <==> row == IdentityRow(Some(hash), Some(IDENTITY_ALGO_VERSION))
    ensures ReadIdentity(row).Err? ==> ReadIdentity(row) == Err(Corrupted)
    ensures ReadIdentity(row).Err? <==>
      row.IdentityRow? && (row.hash.None? || row.version != Some(IDENTITY_ALGO_VERSION))
  {
    if row.IdentityRow? && row.hash.Some? && row.version.Some? {
      assert row == IdentityRow(Some(row.hash.value), Some(row.version.value));
    }
  }

  datatype Decision = FirstRecord | Match | ClearAndRecord

  function Decide(stored: Option<Hash>, computed: Hash): Decision {
    match stored
    case None => FirstRecord
    case Some(hash) => if hash == computed then Match else ClearAndRecord
  }
}
