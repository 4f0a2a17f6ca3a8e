/** src/middleware/userMiddleware.js: `admin`, which lets only admin users through. */
module UserMiddleware {
  import opened Wrappers
  import opened Store
  import opened Http

  /** `user && user.admin`. */
  function IsAdmin(user: Option<User>): (allowed: bool)
    ensures allowed ==> user.Some? && user.value.admin
    ensures user.None? ==> !allowed
  {
    user.Some? && user.value.admin
  }

  /**
   * `admin(req, res, next)`: looks up `req.id` whatever it is (there is no 401
   * branch); `next()` exactly when that user exists and is an admin, 403 for a
   * missing or non-admin user, 500 when the lookup fails.
   */
  method Admin(req: Request, res: Response, db: Database) returns (outcome: Outcome)
    modifies res`statusCode, res`body
    ensures !db.reachable ==> outcome == Ended && res.statusCode == 500 && res.body == Some(Body("Server error", Absent))
    ensures db.reachable ==> (outcome == Next <==> IsAdmin(UserWithId(db.users, req.id)))
    ensures db.reachable && !IsAdmin(UserWithId(db.users, req.id)) ==>
      outcome == Ended && res.statusCode == 403 && res.body == Some(Body("You do not have access to this resource.", Absent))
    ensures outcome == Next ==> res.statusCode == old(res.statusCode) && res.body == old(res.body)
    ensures outcome != Threw
  {
    var id := req.id;
    var found := db.FindUserById(id);
    if found.Err? {
      res.Send(500, "Server error", Absent);
      return Ended;
    }
    var user := found.value;
    if IsAdmin(user) {
      return Next;
    } else {
      res.Send(403, "You do not have access to this resource.", Absent);
      return Ended;
    }
  }

  /** A request that reached the gate without an id is refused, not let through. */
  lemma MissingIdIsNotAdmin(users: seq<User>)
    ensures !IsAdmin(UserWithId(users, None))
  {
  }
}
