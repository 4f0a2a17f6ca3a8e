/** src/controllers/userController.js: signup, the caller's own profile, and password reset. */
module UserController {
  import opened Wrappers
  import opened Identity
  import opened Jwt
  import opened Store
  import opened Http
  import AuthController

  /**
   * `signupUser`: the same code as the authentication controller's handler, so
   * it is that handler: 409 for a taken e-mail; otherwise the user is stored, and
   * the answer is 500 when the insert hands back `null`, or 201 with id-less
   * tokens when it hands back the inserted rows, whatever became of the welcome e-mail.
   */
  method SignupUser(db: Database, res: Response, email: string, username: string, password: string,
                    cfg: Config, now: nat)
    modifies db`users, db`nextId, res`statusCode, res`body, res`cookies, res`authorization
    ensures !db.reachable ==>
      && db.users == old(db.users) && db.nextId == old(db.nextId)
      && res.statusCode == 500 && res.body == Some(Body("Can't create user", Absent))
      && res.cookies == old(res.cookies) && res.authorization == old(res.authorization)
    ensures db.reachable && UserWithEmail(old(db.users), email).Some? ==>
      && db.users == old(db.users) && db.nextId == old(db.nextId) && res.statusCode == 409
      && res.body == Some(Body("User already exists with this email", Absent))
      && res.cookies == old(res.cookies) && res.authorization == old(res.authorization)
    ensures db.reachable && UserWithEmail(old(db.users), email).None? ==>
      var user := old(db.NewUser(email, username, Hash(password)));
      && db.users == old(db.users) + [user] && db.nextId == old(db.nextId) + 1
      && (!db.insertReturnsRows ==>
            && res.statusCode == 500 && res.body == Some(Body("Can't create user", Absent))
            && res.cookies == old(res.cookies) && res.authorization == old(res.authorization))
      && (db.insertReturnsRows ==>
            && res.statusCode == 201 && res.body == Some(Body("User created successfully", Rows([user])))
            && res.cookies == old(res.cookies) + [CookieSet("refreshToken", GenerateRefreshToken(None, cfg, now), RefreshCookieOptions)]
            && res.authorization == Some(Bearer(GenerateToken(None, OneHour, cfg, now))))
  {
    AuthController.SignupUser(db, res, email, username, password, cfg, now);
  }

  /** `getOwnProfile`: the user `req.id` names with 200, 404 when there is none, 500 when the lookup fails. */
  method GetOwnProfile(req: Request, res: Response, db: Database)
    modifies res`statusCode, res`body
    ensures !db.reachable ==> res.statusCode == 500 && res.body == Some(Body("Can't get user profile", Absent))
    ensures db.reachable && UserWithId(db.users, req.id).None? ==>
      res.statusCode == 404 && res.body == Some(Body("User not found", Absent))
    ensures db.reachable && UserWithId(db.users, req.id).Some? ==>
      && res.statusCode == 200 && res.body == Some(Body("Retrieved user info", Record(UserWithId(db.users, req.id).value)))
      && Some(res.body.value.user.record.id) == req.id
  {
    var id := req.id;
    var found := db.FindUserById(id);
    if found.Err? {
      res.Send(500, "Can't get user profile", Absent);
      return;
    }
    var user := found.value;
    if user.None? {
      res.Send(404, "User not found", Absent);
      return;
    }
    res.Send(200, "Retrieved user info", Record(user.value));
  }

  /**
   * `resetPassword`: the same code as the authentication controller's handler,
   * storing the digest through `updateUser(id, { password })`: 401 without a
   * `resetToken` cookie or with one that does not verify, and no update then;
   * otherwise the update, the cookie cleared, and 200.
   */
  method ResetPassword(db: Database, req: Request, res: Response, newPassword: string, cfg: Config, now: nat)
    modifies db`users, res`statusCode, res`body, res`cookies
    ensures CookieValue(req.cookies, "resetToken").None? ==>
      && db.users == old(db.users) && res.cookies == old(res.cookies)
      && res.statusCode == 401 && res.body == Some(Body("Reset token not found or expired", Absent))
    ensures CookieValue(req.cookies, "resetToken").Some? ==>
      var decoded := VerifyToken(Text(CookieValue(req.cookies, "resetToken").value), Access, cfg, now);
      && (decoded.None? ==>
            && db.users == old(db.users) && res.cookies == old(res.cookies)
            && res.statusCode == 401 && res.body == Some(Body("Invalid or expired reset token", Absent)))
      && (decoded.Some? && !Truthy(decoded.value.payload.id) ==>
            && db.users == old(db.users) && res.cookies == old(res.cookies)
            && res.statusCode == 404 && res.body == Some(Body("User does not exist", Absent)))
      && (decoded.Some? && Truthy(decoded.value.payload.id) && !db.reachable ==>
            && db.users == old(db.users) && res.cookies == old(res.cookies)
            && res.statusCode == 500 && res.body == Some(Body("Server error", Absent)))
      && (decoded.Some? && Truthy(decoded.value.payload.id) && db.reachable ==>
            && db.users == WithPassword(old(db.users), decoded.value.payload.id.value, Hash(newPassword))
            && res.cookies == old(res.cookies) + [CookieCleared("resetToken", None)]
            && res.statusCode == 200 && res.body == Some(Body("Password reset successfully", Absent)))
  {
    AuthController.ResetPassword(db, req, res, newPassword, cfg, now);
  }
}
