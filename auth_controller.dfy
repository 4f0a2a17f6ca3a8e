/**
 * src/controllers/authController.js: the signup, login, password-reset, logout
 * and refresh handlers, each writing its outcome onto the response.
 */
module AuthController {
  import opened Wrappers
  import opened Identity
  import opened ResetCode
  import opened Jwt
  import opened Store
  import opened Http
  import opened AuthModel
  import AuthMiddleware

  /** `req.cookies[name]` as it reaches `verifyToken`: the text, or `undefined`. */
  function CookieToken(cookies: map<string, string>, name: string): (t: TokenValue)
    ensures t.Text? <==> name in cookies
    ensures t.Text? ==> t.text == cookies[name]
  {
    if name in cookies then Text(cookies[name]) else Undefined
  }

  /**
   * `signupUser`: 409 when the e-mail is taken; otherwise the user is stored,
   * and what follows depends on the insert's `data`. With `null`, reading
   * `user.id` throws and the answer is 500 after the record was stored. With an
   * array of rows, `user.id` is `undefined`: a thirty-day `refreshToken` cookie
   * and a one-hour `Bearer` token, both without an id, are written and 201 is
   * sent with that array. The welcome e-mail's fate changes nothing. Store failures give 500.
   */
  method SignupUser(db: Database, res: Response, email: string, username: string, password: string,
                    cfg: Config, now: nat)
    modifies db`users, db`nextId, res`statusCode, res`body, res`cookies, res`authorization
    ensures !db.reachable ==>
      && db.users == old(db.users) && db.nextId == old(db.nextId)
      && res.statusCode == 500 && res.body == Some(Body("Can't create user", Absent))
      && res.cookies == old(res.cookies) && res.authorization == old(res.authorization)
    ensures db.reachable && UserWithEmail(old(db.users), email).Some? ==>
      && db.users == old(db.users) && db.nextId == old(db.nextId) && res.statusCode == 409
      && res.body == Some(Body("User already exists with this email", Absent))
      && res.cookies == old(res.cookies) && res.authorization == old(res.authorization)
    ensures db.reachable && UserWithEmail(old(db.users), email).None? ==>
      var user := old(db.NewUser(email, username, Hash(password)));
      && db.users == old(db.users) + [user] && db.nextId == old(db.nextId) + 1
      && (!db.insertReturnsRows ==>
            && res.statusCode == 500 && res.body == Some(Body("Can't create user", Absent))
            && res.cookies == old(res.cookies) && res.authorization == old(res.authorization))
      && (db.insertReturnsRows ==>
            && res.statusCode == 201 && res.body == Some(Body("User created successfully", Rows([user])))
            && res.cookies == old(res.cookies) + [CookieSet("refreshToken", GenerateRefreshToken(None, cfg, now), RefreshCookieOptions)]
            && res.authorization == Some(Bearer(GenerateToken(None, OneHour, cfg, now))))
  {
    var existingUser := db.FindUserByEmail(email);
    if existingUser.Err? {
      res.Send(500, "Can't create user", Absent);
      return;
    }
    if existingUser.value.Some? {
      res.Send(409, "User already exists with this email", Absent);
      return;
    }
    var hashedPassword := Hash(password);
    var user := db.CreateUser(email, username, hashedPassword);
    if user.Err? {
      // The lookup above reached the store, so the insert does too.
      assert false;
    }
    // The welcome e-mail goes out only when `data` is truthy; a failure to
    // send it is only logged, so it changes nothing below.
    if user.value.NoData? {
      // `null.id` throws; the handler's catch answers 500.
      res.Send(500, "Can't create user", Absent);
      return;
    }
    // An array has no `id`: both tokens are signed for `undefined`.
    var accessToken := GenerateToken(None, OneHour, cfg, now);
    var refreshToken := GenerateRefreshToken(None, cfg, now);
    res.Cookie("refreshToken", refreshToken, RefreshCookieOptions);
    res.SetAuthorization(Bearer(accessToken));
    res.Send(201, "User created successfully", Rows(user.value.rows));
  }

  /**
   * `loginUsingEmail`: the same 401 for an unknown e-mail and a wrong password;
   * otherwise the same cookie and header as signup, and 200.
   */
  method LoginUsingEmail(db: Database, res: Response, email: string, password: string, cfg: Config, now: nat)
    modifies res`statusCode, res`body, res`cookies, res`authorization
    ensures !db.reachable ==>
      && res.statusCode == 500 && res.body == Some(Body("Can't login user", Absent))
      && res.cookies == old(res.cookies) && res.authorization == old(res.authorization)
    ensures db.reachable ==>
      var user := UserWithEmail(db.users, email);
      && (user.None? || !VerifyPassword(user.value.password, password) ==>
            && res.statusCode == 401 && res.body == Some(Body("Invalid email or password", Absent))
            && res.cookies == old(res.cookies) && res.authorization == old(res.authorization))
      && (user.Some? && VerifyPassword(user.value.password, password) ==>
            && res.statusCode == 200 && res.body == Some(Body("User logged in successfully", Absent))
            && res.cookies == old(res.cookies) + [CookieSet("refreshToken", GenerateRefreshToken(Some(user.value.id), cfg, now), RefreshCookieOptions)]
            && res.authorization == Some(Bearer(GenerateToken(Some(user.value.id), OneHour, cfg, now))))
  {
    var found := db.FindUserByEmail(email);
    if found.Err? {
      res.Send(500, "Can't login user", Absent);
      return;
    }
    var user := found.value;
    if user.None? || !VerifyPassword(user.value.password, password) {
      res.Send(401, "Invalid email or password", Absent);
      return;
    }
    var accessToken := GenerateToken(Some(user.value.id), OneHour, cfg, now);
    var refreshToken := GenerateRefreshToken(Some(user.value.id), cfg, now);
    res.Cookie("refreshToken", refreshToken, RefreshCookieOptions);
    res.SetAuthorization(Bearer(accessToken));
    res.Send(200, "User logged in successfully", Absent);
  }

  /**
   * `forgotPassword`: 404 for an unknown e-mail with nothing stored; otherwise a
   * fresh code is stored before it is handed to the mailer (`mailedCode`), and
   * the answer is 200 only if the mailer's reply has status 200. `draw` is the
   * random source's draw and `mailStatus` the `status` of the mailer's reply.
   */
  method ForgotPassword(db: Database, res: Response, email: string, draw: nat, mailStatus: Option<int>, now: nat)
    returns (mailedCode: Option<string>)
    requires CodeMin <= draw < CodeMax
    modifies db`resetCodes, res`statusCode, res`body
    ensures !db.reachable ==>
      && mailedCode == None && db.resetCodes == old(db.resetCodes)
      && res.statusCode == 500 && res.body == Some(Body("Can't process forgot password request", Absent))
    ensures db.reachable && UserWithEmail(db.users, email).None? ==>
      && mailedCode == None && db.resetCodes == old(db.resetCodes)
      && res.statusCode == 404 && res.body == Some(Body("User does not exist", Absent))
    ensures db.reachable && UserWithEmail(db.users, email).Some? ==>
      var code := GenerateResetCode(draw);
      && mailedCode == Some(code) && IsResetCode(code)
      && db.resetCodes == old(db.resetCodes) + [NewResetRow(UserWithEmail(db.users, email).value.id, code, now)]
      && (mailStatus == Some(200) ==>
            res.statusCode == 200 && res.body == Some(Body("Reset code sent to your email. Please check your inbox.", Absent)))
      && (mailStatus != Some(200) ==>
            res.statusCode == 500 && res.body == Some(Body("Error sending reset email", Absent)))
  {
    var found := db.FindUserByEmail(email);
    if found.Err? {
      res.Send(500, "Can't process forgot password request", Absent);
      return None;
    }
    var user := found.value;
    if user.None? {
      res.Send(404, "User does not exist", Absent);
      return None;
    }
    var resetCode := GenerateResetCode(draw);
    var inserted := InsertResetCode(db, user.value.id, resetCode, now);
    if inserted.Err? {
      // The lookup above reached the store, so the insert does too.
      assert false;
    }
    mailedCode := Some(resetCode);
    if mailStatus == Some(200) {
      res.Send(200, "Reset code sent to your email. Please check your inbox.", Absent);
    } else {
      res.Send(500, "Error sending reset email", Absent);
    }
  }

  /**
   * `verifyResetCode`: 404 when no single row is found; 400, keeping the row,
   * when the code is wrong or expired; otherwise a ten-minute `resetToken`
   * cookie signed with the access secret, every row of the user deleted, and 200.
   */
  method VerifyResetCode(db: Database, res: Response, userID: UserId, enteredCode: string, cfg: Config, now: nat)
    modifies db`resetCodes, res`statusCode, res`body, res`cookies
    ensures var found := if db.reachable then SelectSingle(old(db.resetCodes), userID) else Err(Unavailable);
      && (found.Err? ==>
            && db.resetCodes == old(db.resetCodes) && res.cookies == old(res.cookies)
            && res.statusCode == 404 && res.body == Some(Body("No reset code found", Absent)))
      && (found.Ok? && !ValidateResetCode(enteredCode, found.value.resetCode, found.value.expirationTime, now) ==>
            && db.resetCodes == old(db.resetCodes) && res.cookies == old(res.cookies)
            && res.statusCode == 400 && res.body == Some(Body("Invalid or expired reset code", Absent)))
      && (found.Ok? && ValidateResetCode(enteredCode, found.value.resetCode, found.value.expirationTime, now) ==>
            && db.resetCodes == WithoutUser(old(db.resetCodes), userID)
            && res.cookies == old(res.cookies) + [CookieSet("resetToken", GenerateToken(Some(userID), TenMinutes, cfg, now), ResetCookieOptions)]
            && res.statusCode == 200 && res.body == Some(Body("Reset code verified", Absent)))
  {
    var resetData := GetResetCode(db, userID);
    if resetData.Err? {
      res.Send(404, "No reset code found", Absent);
      return;
    }
    var row := resetData.value;
    var isValid := ValidateResetCode(enteredCode, row.resetCode, row.expirationTime, now);
    if isValid {
      var resetToken := GenerateToken(Some(userID), TenMinutes, cfg, now);
      res.Cookie("resetToken", resetToken, ResetCookieOptions);
      var _ := DeleteResetCode(db, userID);
      res.Send(200, "Reset code verified", Absent);
    } else {
      res.Send(400, "Invalid or expired reset code", Absent);
    }
  }

  /**
   * `resetPassword`: 401 without a `resetToken` cookie and 401 when it fails
   * verification with the access secret, both before any update; 404 when the
   * token carries no truthy id; otherwise the new digest is stored, the cookie
   * cleared and 200 sent.
   */
  method ResetPassword(db: Database, req: Request, res: Response, newPassword: string, cfg: Config, now: nat)
    modifies db`users, res`statusCode, res`body, res`cookies
    ensures CookieValue(req.cookies, "resetToken").None? ==>
      && db.users == old(db.users) && res.cookies == old(res.cookies)
      && res.statusCode == 401 && res.body == Some(Body("Reset token not found or expired", Absent))
    ensures CookieValue(req.cookies, "resetToken").Some? ==>
      var decoded := VerifyToken(Text(CookieValue(req.cookies, "resetToken").value), Access, cfg, now);
      && (decoded.None? ==>
            && db.users == old(db.users) && res.cookies == old(res.cookies)
            && res.statusCode == 401 && res.body == Some(Body("Invalid or expired reset token", Absent)))
      && (decoded.Some? && !Truthy(decoded.value.payload.id) ==>
            && db.users == old(db.users) && res.cookies == old(res.cookies)
            && res.statusCode == 404 && res.body == Some(Body("User does not exist", Absent)))
      && (decoded.Some? && Truthy(decoded.value.payload.id) && !db.reachable ==>
            && db.users == old(db.users) && res.cookies == old(res.cookies)
            && res.statusCode == 500 && res.body == Some(Body("Server error", Absent)))
      && (decoded.Some? && Truthy(decoded.value.payload.id) && db.reachable ==>
            && db.users == WithPassword(old(db.users), decoded.value.payload.id.value, Hash(newPassword))
            && res.cookies == old(res.cookies) + [CookieCleared("resetToken", None)]
            && res.statusCode == 200 && res.body == Some(Body("Password reset successfully", Absent)))
  {
    var resetToken := CookieValue(req.cookies, "resetToken");
    if resetToken.None? {
      res.Send(401, "Reset token not found or expired", Absent);
      return;
    }
    var decoded := VerifyToken(Text(resetToken.value), Access, cfg, now);
    if decoded.None? {
      res.Send(401, "Invalid or expired reset token", Absent);
      return;
    }
    var userID := decoded.value.payload.id;
    if !Truthy(userID) {
      res.Send(404, "User does not exist", Absent);
      return;
    }
    var hashedPassword := Hash(newPassword);
    var updated := db.UpdatePassword(userID.value, hashedPassword);
    if updated.Err? {
      res.Send(500, "Server error", Absent);
      return;
    }
    res.ClearCookie("resetToken", None);
    res.Send(200, "Password reset successfully", Absent);
  }

  /** `logout`: clears the `refreshToken` cookie and answers 200; nothing else is touched. */
  method Logout(res: Response)
    modifies res`statusCode, res`body, res`cookies
    ensures res.cookies == old(res.cookies) + [CookieCleared("refreshToken", Some(StrictCookieOptions))]
    ensures res.statusCode == 200 && res.body == Some(Body("Logged out successfully", Absent))
  {
    res.ClearCookie("refreshToken", Some(StrictCookieOptions));
    res.Send(200, "Logged out successfully", Absent);
  }

  /**
   * `refreshTokens`: 401 when the cookie does not verify as a refresh token.
   * Otherwise the handler passes the decoded object, not the cookie text, to
   * `refreshAllTokens`, which answers `null`; destructuring it throws and the
   * handler answers 500 without writing a cookie or a header.
   */
  method RefreshTokens(req: Request, res: Response, cfg: Config, now: nat)
    modifies res`statusCode, res`body, res`cookies, res`authorization
    ensures res.cookies == old(res.cookies) && res.authorization == old(res.authorization)
    ensures VerifyToken(CookieToken(req.cookies, "refreshToken"), Refresh, cfg, now).None? ==>
      res.statusCode == 401 && res.body == Some(Body("Can't verify refresh token", Absent))
    ensures VerifyToken(CookieToken(req.cookies, "refreshToken"), Refresh, cfg, now).Some? ==>
      res.statusCode == 500 && res.body == Some(Body("Can't refresh access token", Absent))
  {
    var refreshToken := CookieToken(req.cookies, "refreshToken");
    var refreshTokenVerification := VerifyToken(refreshToken, Refresh, cfg, now);
    if refreshTokenVerification.None? {
      res.Send(401, "Can't verify refresh token", Absent);
      return;
    }
    var tokens := RefreshAllTokens(Decoded(refreshTokenVerification.value), cfg, now);
    assert tokens == None;
    res.Send(500, "Can't refresh access token", Absent);
  }

  /**
   * The reset token is an ordinary access token: the `resetToken` issued by
   * `verifyResetCode` authenticates as a `Bearer` access token for its ten minutes.
   */
  lemma ResetTokenAuthenticates(userID: UserId, cfg: Config, issuedAt: nat, now: nat)
    ensures var r := AuthMiddleware.AccessVerification(Some(Bearer(GenerateToken(Some(userID), TenMinutes, cfg, issuedAt))), cfg, now);
      && (r.Some? <==> now / 1000 < issuedAt / 1000 + 600)
      && (r.Some? ==> r.value.payload.id == Some(userID))
  {
    AuthMiddleware.IssuedBearerHeaderAuthenticates(Some(userID), 600, cfg, issuedAt, now);
  }

  /**
   * The header a signup writes authenticates for its hour but carries no id,
   * so every gate behind it sees a request without a user.
   */
  lemma SignupHeaderCarriesNoId(cfg: Config, issuedAt: nat, now: nat)
    ensures var r := AuthMiddleware.AccessVerification(Some(Bearer(GenerateToken(None, OneHour, cfg, issuedAt))), cfg, now);
      && (r.Some? <==> now / 1000 < issuedAt / 1000 + 3600)
      && (r.Some? ==> r.value.payload.id == None && !Truthy(r.value.payload.id))
  {
    AuthMiddleware.IssuedBearerHeaderAuthenticates(None, 3600, cfg, issuedAt, now);
  }

  /** Conversely, the one-hour access token of a login is accepted as a `resetToken`. */
  lemma AccessTokenResetsPassword(userID: UserId, cfg: Config, issuedAt: nat, now: nat)
    ensures var decoded := VerifyToken(Text(GenerateToken(Some(userID), OneHour, cfg, issuedAt)), Access, cfg, now);
      && (decoded.Some? <==> now / 1000 < issuedAt / 1000 + 3600)
      && (decoded.Some? ==> decoded.value.payload.id == Some(userID))
  {
    GeneratedTokenVerifiesUntilExpiry(Some(userID), 3600, cfg, issuedAt, now);
  }
}
