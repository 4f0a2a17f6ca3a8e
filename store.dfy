/**
 * The abstract database the handlers talk to: the `user-service` table (whose
 * model files are stubs, so only the interface the handlers call is given) and
 * the `reset_code` table, with the row-level meaning of Supabase's insert,
 * `select().eq().single()` and `delete().eq()`.
 */
module Store {
  import opened Wrappers
  import opened Identity
  import opened ResetCode

  /** argon2id as an opaque one-way function: a digest only records what it was computed from. */
  datatype Digest = Argon2id(source: string)

  function Hash(password: string): (d: Digest)
    ensures VerifyPassword(d, password)
  {
    Argon2id(password)
  }

  /** `argon2.verify(digest, password)`. */
  predicate VerifyPassword(d: Digest, password: string)
  {
    d.source == password
  }

  /** A digest accepts only the password it was computed from. */
  lemma HashAcceptsOnlyItsPassword(password: string, attempt: string)
    ensures VerifyPassword(Hash(password), attempt) <==> attempt == password
  {
  }

  /** The `roles` column: an array of role names, or some other JSON value. */
  datatype Roles = RoleList(names: seq<string>) | NotAList

  datatype User = User(id: UserId, email: string, username: string, password: Digest, roles: Roles, admin: bool)

  /** A row of the `reset_code` table. */
  datatype ResetRow = ResetRow(userID: UserId, resetCode: string, expirationTime: Timestamp)

  datatype StoreError = Unavailable | NotExactlyOne

  /**
   * The `data` of an insert that is not followed by `.select()`: `null`, or,
   * with a client that returns the representation by default, the array of
   * inserted rows. Neither is the inserted record itself.
   */
  datatype InsertData = NoData | InsertedRows(rows: seq<User>)

  /** The first user whose `email` matches. */
  function UserWithEmail(users: seq<User>, email: string): (r: Option<User>)
    ensures r.Some? ==> r.value in users && r.value.email == email
    ensures r.None? <==> forall i :: 0 <= i < |users| ==> users[i].email != email
  {
    if users == [] then None
    else if users[0].email == email then Some(users[0])
    else UserWithEmail(users[1..], email)
  }

  /** The first user whose `id` matches; a missing id matches nobody. */
  function UserWithId(users: seq<User>, id: Option<UserId>): (r: Option<User>)
    ensures r.Some? ==> r.value in users && id == Some(r.value.id)
    ensures r.None? <==> id.None? || forall i :: 0 <= i < |users| ==> users[i].id != id.value
  {
    if id.None? || users == [] then None
    else if users[0].id == id.value then Some(users[0])
    else UserWithId(users[1..], id)
  }

  /** `update({ password }).eq("id", id)`: every user with that id gets the new digest. */
  function WithPassword(users: seq<User>, id: UserId, password: Digest): (r: seq<User>)
    ensures |r| == |users|
    ensures forall i :: 0 <= i < |users| ==>
      r[i] == if users[i].id == id then users[i].(password := password) else users[i]
  {
    seq(|users|, i requires 0 <= i < |users| =>
      if users[i].id == id then users[i].(password := password) else users[i])
  }

  /** The rows of one user, in table order. */
  function RowsOf(rows: seq<ResetRow>, u: UserId): (r: seq<ResetRow>)
    ensures forall x :: x in r <==> x in rows && x.userID == u
    ensures |r| <= |rows|
  {
    if rows == [] then []
    else if rows[0].userID == u then [rows[0]] + RowsOf(rows[1..], u)
    else RowsOf(rows[1..], u)
  }

  /** `delete().eq("userID", u)`: the table without any row of `u`, the rest in order. */
  function WithoutUser(rows: seq<ResetRow>, u: UserId): (r: seq<ResetRow>)
    ensures forall x :: x in r <==> x in rows && x.userID != u
    ensures |r| + |RowsOf(rows, u)| == |rows|
  {
    if rows == [] then []
    else if rows[0].userID == u then WithoutUser(rows[1..], u)
    else [rows[0]] + WithoutUser(rows[1..], u)
  }

  /** `select("*").eq("userID", u).single()`: the row when there is exactly one, an error otherwise. */
  function SelectSingle(rows: seq<ResetRow>, u: UserId): (r: Result<ResetRow, StoreError>)
    ensures r.Ok? <==> |RowsOf(rows, u)| == 1
    ensures r.Ok? ==> r.value in rows && r.value.userID == u && RowsOf(rows, u) == [r.value]
  {
    var mine := RowsOf(rows, u);
    if |mine| == 1 then Ok(mine[0]) else Err(NotExactlyOne)
  }

  /** After `update({ password }).eq("id", id)` the user found by that id carries the new digest. */
  lemma {:induction false} UpdatedUserHasNewPassword(users: seq<User>, id: UserId, password: Digest)
    requires UserWithId(users, Some(id)).Some?
    ensures UserWithId(WithPassword(users, id, password), Some(id)) == Some(UserWithId(users, Some(id)).value.(password := password))
    decreases |users|
  {
    if users[0].id != id {
      assert WithPassword(users, id, password)[1..] == WithPassword(users[1..], id, password);
      UpdatedUserHasNewPassword(users[1..], id, password);
    }
  }

  /**
   * A password reset takes effect: afterwards the user's digest accepts the new
   * password and rejects every other one, the old password included.
   */
  lemma ResetPasswordTakesEffect(users: seq<User>, id: UserId, newPassword: string, oldPassword: string)
    requires UserWithId(users, Some(id)).Some?
    ensures var u := UserWithId(WithPassword(users, id, Hash(newPassword)), Some(id));
      && u.Some? && VerifyPassword(u.value.password, newPassword)
      && (oldPassword != newPassword ==> !VerifyPassword(u.value.password, oldPassword))
  {
    UpdatedUserHasNewPassword(users, id, Hash(newPassword));
  }

  /** Appending a row adds it to its own user's rows and to nobody else's. */
  lemma {:induction false} RowsOfAppend(rows: seq<ResetRow>, row: ResetRow, u: UserId)
    ensures RowsOf(rows + [row], u) == RowsOf(rows, u) + (if row.userID == u then [row] else [])
    decreases |rows|
  {
    if rows != [] {
      assert (rows + [row])[1..] == rows[1..] + [row];
      RowsOfAppend(rows[1..], row, u);
    } else {
      assert RowsOf([row], u) == (if row.userID == u then [row] else []) + RowsOf([], u) by {
        assert [row][1..] == [];
      }
    }
  }

  /** Deleting one user's rows leaves every other user's rows exactly as they were. */
  lemma {:induction false} DeletionSparesOthers(rows: seq<ResetRow>, u: UserId, v: UserId)
    requires u != v
    ensures RowsOf(WithoutUser(rows, u), v) == RowsOf(rows, v)
    decreases |rows|
  {
    if rows != [] {
      DeletionSparesOthers(rows[1..], u, v);
      if rows[0].userID != u {
        assert ([rows[0]] + WithoutUser(rows[1..], u))[1..] == WithoutUser(rows[1..], u);
      }
    }
  }

  /** Deleting a user's rows leaves that user none. */
  lemma DeletionRemovesAll(rows: seq<ResetRow>, u: UserId)
    ensures RowsOf(WithoutUser(rows, u), u) == []
    ensures SelectSingle(WithoutUser(rows, u), u).Err?
  {
  }

  /** After one row for a user that had none, `.single()` finds exactly that row. */
  lemma SingleAfterFirstInsert(rows: seq<ResetRow>, row: ResetRow)
    requires RowsOf(rows, row.userID) == []
    ensures SelectSingle(rows + [row], row.userID) == Ok(row)
  {
    RowsOfAppend(rows, row, row.userID);
  }

  /**
   * Rows are appended, never replaced: once a second row for the same user is
   * added, `.single()` fails for that user.
   */
  lemma SecondRowBreaksSingle(rows: seq<ResetRow>, first: ResetRow, second: ResetRow)
    requires first.userID == second.userID
    ensures |RowsOf(rows + [first] + [second], first.userID)| >= 2
    ensures SelectSingle(rows + [first] + [second], first.userID).Err?
  {
    RowsOfAppend(rows, first, first.userID);
    RowsOfAppend(rows + [first], second, first.userID);
  }

  /**
   * The database as one request sees it. `reachable` says whether its calls
   * succeed during this request; `nextId` is the next value of the identity
   * column; `newUserRoles` and `newUserAdmin` are the column defaults a new user
   * gets; `insertReturnsRows` says which `InsertData` the client hands back.
   */
  class Database {
    var users: seq<User>
    var resetCodes: seq<ResetRow>
    var nextId: UserId
    const reachable: bool
    const newUserRoles: Roles
    const newUserAdmin: bool
    const insertReturnsRows: bool

    constructor (users: seq<User>, resetCodes: seq<ResetRow>, nextId: UserId, reachable: bool,
                 newUserRoles: Roles, newUserAdmin: bool, insertReturnsRows: bool)
      ensures this.users == users && this.resetCodes == resetCodes && this.nextId == nextId
      ensures this.reachable == reachable && this.newUserRoles == newUserRoles && this.newUserAdmin == newUserAdmin
      ensures this.insertReturnsRows == insertReturnsRows
    {
      this.users := users;
      this.resetCodes := resetCodes;
      this.nextId := nextId;
      this.reachable := reachable;
      this.newUserRoles := newUserRoles;
      this.newUserAdmin := newUserAdmin;
      this.insertReturnsRows := insertReturnsRows;
    }

    /** `userModel.findUserByEmail` (and `findUserByEmailWithPassword`: the record holds the digest). */
    method FindUserByEmail(email: string) returns (r: Result<Option<User>, StoreError>)
      ensures r.Ok? <==> reachable
      ensures r.Ok? ==> r.value == UserWithEmail(users, email)
    {
      if !reachable {
        return Err(Unavailable);
      }
      return Ok(UserWithEmail(users, email));
    }

    /** `userModel.findUserById`. */
    method FindUserById(id: Option<UserId>) returns (r: Result<Option<User>, StoreError>)
      ensures r.Ok? <==> reachable
      ensures r.Ok? ==> r.value == UserWithId(users, id)
    {
      if !reachable {
        return Err(Unavailable);
      }
      return Ok(UserWithId(users, id));
    }

    /** The record `createUser(email, username, password)` stores at the current identity value. */
    function NewUser(email: string, username: string, password: Digest): (u: User)
      reads this
      ensures u.id == nextId && u.email == email && u.username == username && u.password == password
    {
      User(nextId, email, username, password, newUserRoles, newUserAdmin)
    }

    /**
     * `userModel.createUser(email, username, password)`: appends one record and
     * returns the insert's `data`, which is not that record.
     */
    method CreateUser(email: string, username: string, password: Digest) returns (r: Result<InsertData, StoreError>)
      modifies this`users, this`nextId
      ensures r.Ok? <==> reachable
      ensures r.Ok? ==>
        && users == old(users) + [old(NewUser(email, username, password))] && nextId == old(nextId) + 1
        && r.value == if insertReturnsRows then InsertedRows([old(NewUser(email, username, password))]) else NoData
      ensures r.Err? ==> users == old(users) && nextId == old(nextId)
    {
      if !reachable {
        return Err(Unavailable);
      }
      var user := NewUser(email, username, password);
      users := users + [user];
      nextId := nextId + 1;
      if insertReturnsRows {
        return Ok(InsertedRows([user]));
      }
      return Ok(NoData);
    }

    /** `userModel.updatePassword(id, digest)` / `userModel.updateUser(id, { password: digest })`. */
    method UpdatePassword(id: UserId, password: Digest) returns (r: Result<(), StoreError>)
      modifies this`users
      ensures r.Ok? <==> reachable
      ensures users == if reachable then WithPassword(old(users), id, password) else old(users)
    {
      if !reachable {
        return Err(Unavailable);
      }
      users := WithPassword(users, id, password);
      return Ok(());
    }

    /** `from("reset_code").insert([row]).select("*")`: the inserted rows. */
    method InsertResetRow(row: ResetRow) returns (r: Result<seq<ResetRow>, StoreError>)
      modifies this`resetCodes
      ensures r.Ok? <==> reachable
      ensures r.Ok? ==> r.value == [row] && resetCodes == old(resetCodes) + [row]
      ensures r.Err? ==> resetCodes == old(resetCodes)
    {
      if !reachable {
        return Err(Unavailable);
      }
      resetCodes := resetCodes + [row];
      return Ok([row]);
    }

    /** `from("reset_code").select("*").eq("userID", u).single()`. */
    method SelectResetRow(u: UserId) returns (r: Result<ResetRow, StoreError>)
      ensures r == if reachable then SelectSingle(resetCodes, u) else Err(Unavailable)
    {
      if !reachable {
        return Err(Unavailable);
      }
      return SelectSingle(resetCodes, u);
    }

    /** `from("reset_code").delete().eq("userID", u)`. */
    method DeleteResetRows(u: UserId) returns (r: Result<(), StoreError>)
      modifies this`resetCodes
      ensures r.Ok? <==> reachable
      ensures resetCodes == if reachable then WithoutUser(old(resetCodes), u) else old(resetCodes)
    {
      if !reachable {
        return Err(Unavailable);
      }
      resetCodes := WithoutUser(resetCodes, u);
      return Ok(());
    }
  }
}
