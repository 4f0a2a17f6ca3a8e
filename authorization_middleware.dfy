/**
 * src/middleware/authorizationMiddleware.js: `authorize(roles)`, which lets a
 * request through when the user attached by `authenticate` holds one of `roles`.
 */
module AuthorizationMiddleware {
  import opened Wrappers
  import opened Identity
  import opened Store
  import opened Http

  /** `held.some((role) => required.includes(role))`. */
  function SomeRoleRequired(held: seq<string>, required: seq<string>): (b: bool)
    ensures b <==> exists i :: 0 <= i < |held| && held[i] in required
  {
    if held == [] then false
    else if held[0] in required then true
    else
      var rest := SomeRoleRequired(held[1..], required);
      assert rest <==> exists i :: 1 <= i < |held| && held[i] in required by {
        if rest {
          var j :| 0 <= j < |held[1..]| && held[1..][j] in required;
          assert held[j + 1] in required;
        }
        if exists i :: 1 <= i < |held| && held[i] in required {
          var i :| 1 <= i < |held| && held[i] in required;
          assert held[1..][i - 1] in required;
        }
      }
      rest
  }

  /** `user && Array.isArray(user.roles) && user.roles.some(...)`: the held and required roles intersect. */
  function HasRequiredRole(user: Option<User>, roles: seq<string>): (allowed: bool)
    ensures allowed <==>
      user.Some? && user.value.roles.RoleList?
      && exists i :: 0 <= i < |user.value.roles.names| && user.value.roles.names[i] in roles
  {
    user.Some? && user.value.roles.RoleList? && SomeRoleRequired(user.value.roles.names, roles)
  }

  /** The gate is a set intersection: some role is both held and required. */
  lemma HasRequiredRoleIsIntersection(user: Option<User>, roles: seq<string>)
    ensures HasRequiredRole(user, roles) <==>
      user.Some? && user.value.roles.RoleList?
      && (set r | r in user.value.roles.names) * (set r | r in roles) != {}
  {
    if user.Some? && user.value.roles.RoleList? {
      var held := user.value.roles.names;
      if HasRequiredRole(user, roles) {
        var i :| 0 <= i < |held| && held[i] in roles;
        assert held[i] in (set r | r in held) * (set r | r in roles);
      }
      if (set r | r in held) * (set r | r in roles) != {} {
        var r :| r in (set r | r in held) * (set r | r in roles);
        var i :| 0 <= i < |held| && held[i] == r;
        assert held[i] in roles;
      }
    }
  }

  /** An empty list of required roles admits nobody. */
  lemma NoRequiredRoleDeniesAll(user: Option<User>)
    ensures !HasRequiredRole(user, [])
  {
  }

  /**
   * `authorize(roles)(req, res, next)`: 401 without a truthy `req.id`, before
   * any lookup; 500 when the lookup fails; `next()` exactly when the stored user
   * holds a required role; 403 otherwise. No token is looked at.
   */
  method Authorize(roles: seq<string>, req: Request, res: Response, db: Database) returns (outcome: Outcome)
    modifies res`statusCode, res`body
    ensures !Truthy(req.id) ==>
      outcome == Ended && res.statusCode == 401 && res.body == Some(Body("Unauthorized: User ID not found in request", Absent))
    ensures Truthy(req.id) && !db.reachable ==>
      outcome == Ended && res.statusCode == 500 && res.body == Some(Body("Server error", Absent))
    ensures Truthy(req.id) && db.reachable ==>
      (outcome == Next <==> HasRequiredRole(UserWithId(db.users, req.id), roles))
    ensures Truthy(req.id) && db.reachable && !HasRequiredRole(UserWithId(db.users, req.id), roles) ==>
      outcome == Ended && res.statusCode == 403
      && res.body == Some(Body("You do not have permission to access this resource.", Absent))
    ensures outcome == Next ==> res.statusCode == old(res.statusCode) && res.body == old(res.body)
    ensures outcome != Threw
  {
    var id := req.id;
    if !Truthy(id) {
      res.Send(401, "Unauthorized: User ID not found in request", Absent);
      return Ended;
    }
    var found := db.FindUserById(id);
    if found.Err? {
      res.Send(500, "Server error", Absent);
      return Ended;
    }
    var user := found.value;
    if HasRequiredRole(user, roles) {
      return Next;
    } else {
      res.Send(403, "You do not have permission to access this resource.", Absent);
      return Ended;
    }
  }
}
