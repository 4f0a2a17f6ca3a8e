/**
 * src/models/authModel.js: the reset-code table operations, each of which
 * throws (here: returns Err) when the database reports an error.
 */
module AuthModel {
  import opened Wrappers
  import opened Identity
  import opened ResetCode
  import opened Store

  /** Five minutes, in milliseconds. */
  const ResetCodeLifetime: nat := 5 * 60 * 1000

  /** The row `insertResetCode(userID, resetCode)` writes at clock time `now`. */
  function NewResetRow(userID: UserId, resetCode: string, now: nat): (row: ResetRow)
    ensures row.userID == userID && row.resetCode == resetCode
    ensures Instant(row.expirationTime) == now + 300000 && row.expirationTime.IsoString?
  {
    ResetRow(userID, resetCode, IsoString(now + ResetCodeLifetime))
  }

  /**
   * `insertResetCode`: appends one row whose expiry, stored as ISO text, is five
   * minutes after `now`; earlier rows of the same user stay.
   */
  method InsertResetCode(db: Database, userID: UserId, resetCode: string, now: nat) returns (r: Result<seq<ResetRow>, StoreError>)
    modifies db`resetCodes
    ensures r.Ok? <==> db.reachable
    ensures r.Ok? ==>
      r.value == [NewResetRow(userID, resetCode, now)]
      && db.resetCodes == old(db.resetCodes) + [NewResetRow(userID, resetCode, now)]
    ensures r.Err? ==> db.resetCodes == old(db.resetCodes)
  {
    var expirationTime := IsoString(now + ResetCodeLifetime);
    var inserted := db.InsertResetRow(ResetRow(userID, resetCode, expirationTime));
    if inserted.Err? {
      return Err(inserted.error);
    }
    return Ok(inserted.value);
  }

  /**
   * `getAndDeleteResetCode`: reads the user's single row, then deletes every
   * row of that user. A failed read throws before anything is deleted.
   */
  method GetAndDeleteResetCode(db: Database, userID: UserId) returns (r: Result<ResetRow, StoreError>)
    modifies db`resetCodes
    ensures r == if db.reachable then SelectSingle(old(db.resetCodes), userID) else Err(Unavailable)
    ensures r.Ok? ==> db.resetCodes == WithoutUser(old(db.resetCodes), userID)
    ensures r.Ok? ==> RowsOf(db.resetCodes, userID) == []
    ensures r.Ok? ==> forall v :: v != userID ==> RowsOf(db.resetCodes, v) == RowsOf(old(db.resetCodes), v)
    ensures r.Err? ==> db.resetCodes == old(db.resetCodes)
  {
    var selected := db.SelectResetRow(userID);
    if selected.Err? {
      return Err(selected.error);
    }
    var deleted := db.DeleteResetRows(userID);
    if deleted.Err? {
      return Err(Unavailable);
    }
    DeletionRemovesAll(old(db.resetCodes), userID);
    forall v | v != userID
      ensures RowsOf(db.resetCodes, v) == RowsOf(old(db.resetCodes), v)
    {
      DeletionSparesOthers(old(db.resetCodes), userID, v);
    }
    return Ok(selected.value);
  }

  /**
   * `authModel.getResetCode(userID)`, which the verify-reset-code handler calls
   * but authModel.js does not define: modelled as the read half of
   * `getAndDeleteResetCode`, answering `{ data, error }` instead of throwing.
   */
  method GetResetCode(db: Database, userID: UserId) returns (r: Result<ResetRow, StoreError>)
    ensures r == if db.reachable then SelectSingle(db.resetCodes, userID) else Err(Unavailable)
  {
    r := db.SelectResetRow(userID);
  }

  /**
   * `authModel.deleteResetCode(userID)`, likewise not defined in authModel.js:
   * modelled as the delete half of `getAndDeleteResetCode`.
   */
  method DeleteResetCode(db: Database, userID: UserId) returns (r: Result<(), StoreError>)
    modifies db`resetCodes
    ensures r.Ok? <==> db.reachable
    ensures db.resetCodes == if db.reachable then WithoutUser(old(db.resetCodes), userID) else old(db.resetCodes)
  {
    r := db.DeleteResetRows(userID);
  }

  /**
   * The stored expiry is ISO text, which `validateResetCode` compares with a
   * number: a row written by `insertResetCode` never validates, whatever code
   * is entered and whenever.
   */
  lemma StoredRowNeverValidates(userID: UserId, resetCode: string, issuedAt: nat, enteredCode: string, now: int)
    ensures var row := NewResetRow(userID, resetCode, issuedAt);
      !ValidateResetCode(enteredCode, row.resetCode, row.expirationTime, now)
  {
  }

  /**
   * Had the expiry been kept as the number of milliseconds the validator
   * documents, the e-mailed code would be accepted for exactly five minutes.
   */
  lemma NumericExpiryWindow(resetCode: string, issuedAt: nat, now: int)
    ensures ValidateResetCode(resetCode, resetCode, Millis(issuedAt + ResetCodeLifetime), now) <==> now < issuedAt + 300000
  {
  }
}
