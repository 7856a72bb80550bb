/** `UserRoleGuard.canActivate`: the active-account check followed by the
    role check. The roles a route requires (stored verbatim by
    `RoleProtected`) are passed in as a parameter; `None` stands for a route
    that declares none. */
module UserRoleGuard {
  import opened Common
  import opened UserEntity

  /** The user is present on the request and active. */
  predicate IsActiveUser(user: Option<UserRow>) {
    user.Some? && user.value.isActive
  }

  /** The route requires at least one role. */
  predicate RequiresRoles(requiredRoles: Option<seq<string>>) {
    requiredRoles.Some? && |requiredRoles.value| > 0
  }

  function RoleSet(roles: seq<string>): set<string> {
    set r | r in roles
  }

  /** Reference rule for admission: an active user, and either no required
      roles or a required role the user holds (any one suffices). */
  predicate Admits(user: Option<UserRow>, requiredRoles: Option<seq<string>>): (ok: bool)
    // the same rule, stated position by position as the guard's loop scans it
    ensures ok <==>
      && IsActiveUser(user)
      && (!RequiresRoles(requiredRoles)
          || exists i :: 0 <= i < |requiredRoles.value| && requiredRoles.value[i] in user.value.roles)
  {
    if IsActiveUser(user) && RequiresRoles(requiredRoles) then
      var common := RoleSet(requiredRoles.value) * RoleSet(user.value.roles);
      assert forall i :: (0 <= i < |requiredRoles.value| && requiredRoles.value[i] in user.value.roles
        ==> requiredRoles.value[i] in common);
      common != {}
    else
      IsActiveUser(user)
  }

  /** The total length of `parts`. */
  function TotalLength(parts: seq<string>): nat {
    if |parts| == 0 then 0 else |parts[0]| + TotalLength(parts[1..])
  }

  /** `parts.join(sep)`: the parts in order, a separator between each two. */
  function Join(parts: seq<string>, sep: string): (r: string)
    ensures |parts| == 0 ==> r == ""
    ensures |parts| > 0 ==> parts[0] <= r
    ensures |parts| > 0 ==>
      |parts[|parts| - 1]| <= |r| && r[|r| - |parts[|parts| - 1]|..] == parts[|parts| - 1]
    ensures |parts| > 0 ==> |r| == TotalLength(parts) + (|parts| - 1) * |sep|
  {
    if |parts| == 0 then ""
    else if |parts| == 1 then parts[0]
    else
      var rest := Join(parts[1..], sep);
      var last := parts[|parts| - 1];
      assert parts[1..][|parts[1..]| - 1] == last;
      var r := parts[0] + sep + rest;
      assert r[|r| - |last|..] == rest[|rest| - |last|..];
      r
  }

  /** `join` read left to right, as ECMA-262 defines `Array.prototype.join`:
      appending a part appends the separator and then that part. With
      `Join([]) == ""` and `Join([x]) == x` this fixes every result. */
  lemma {:induction false} JoinSnoc(parts: seq<string>, x: string, sep: string)
    requires |parts| > 0
    ensures Join([x], sep) == x
    ensures Join(parts + [x], sep) == Join(parts, sep) + sep + x
  {
    var longer := parts + [x];
    assert longer[0] == parts[0] && longer[1..] == parts[1..] + [x];
    var tail := Join(longer[1..], sep);
    assert Join(longer, sep) == parts[0] + sep + tail;
    if |parts| == 1 {
      assert longer[1..] == [x];
    } else {
      JoinSnoc(parts[1..], x, sep);
      assert tail == Join(parts[1..], sep) + sep + x;
      assert Join(parts, sep) == parts[0] + sep + Join(parts[1..], sep);
      ConcatRegroups(parts[0], sep, Join(parts[1..], sep), x);
    }
  }

  lemma ConcatRegroups(head: string, sep: string, middle: string, last: string)
    ensures head + sep + (middle + sep + last) == (head + sep + middle) + sep + last
  {
  }

  /** The text of the role-mismatch error: it names the user, then lists the
      required roles joined by ", " between brackets. */
  function NoValidRoleMessage(user: UserRow, requiredRoles: seq<string>): (m: string)
    ensures "User '" + user.firstName + " " + user.lastName + "'" <= m
    ensures |Join(requiredRoles, ", ")| + 2 <= |m|
    ensures m[|m| - |Join(requiredRoles, ", ")| - 2..] == "[" + Join(requiredRoles, ", ") + "]"
  {
    var head := "User '" + user.firstName + " " + user.lastName + "'";
    var listed := "[" + Join(requiredRoles, ", ") + "]";
    var m := head + " doesn't have a valid role. " + listed;
    SplitAt(head, " doesn't have a valid role. ");
    SplitAt(head + " doesn't have a valid role. ", listed);
    m
  }

  /** `a` is a prefix of `a + b`, and what follows it is `b`. */
  lemma SplitAt(a: string, b: string)
    ensures a <= a + b && (a + b)[|a|..] == b
  {
  }

  /** The guard. It returns `true` or throws; it never returns `false`. */
  method CanActivate(user: Option<UserRow>, requiredRoles: Option<seq<string>>)
    returns (r: Result<bool, HttpException>)
    ensures r.Success? ==> r.value
    ensures r.Success? <==> Admits(user, requiredRoles)
    ensures !IsActiveUser(user) ==> r == Failure(BadRequest("Invalid user"))
    ensures IsActiveUser(user) && !Admits(user, requiredRoles) ==>
      r == Failure(BadRequest(NoValidRoleMessage(user.value, requiredRoles.value)))
  {
    if user.None? || !user.value.isActive {
      return Failure(BadRequest("Invalid user"));
    }
    if requiredRoles.None? || |requiredRoles.value| == 0 {
      return Success(true);
    }
    var roles := requiredRoles.value;
    var hasValidRole := false;
    for index := 0 to |roles|
      invariant hasValidRole <==> exists j :: 0 <= j < index && roles[j] in user.value.roles
    {
      if roles[index] in user.value.roles {
        hasValidRole := true;
      }
    }
    if hasValidRole {
      var j :| 0 <= j < |roles| && roles[j] in user.value.roles;
      assert roles[j] in RoleSet(roles) * RoleSet(user.value.roles);
    } else {
      assert RoleSet(roles) * RoleSet(user.value.roles) == {};
      return Failure(BadRequest(NoValidRoleMessage(user.value, roles)));
    }
    return Success(true);
  }

  /** The decision depends on the required roles only as a set: neither their
      order nor repetitions matter. */
  lemma AdmitsIgnoresOrder(user: Option<UserRow>, roles1: seq<string>, roles2: seq<string>)
    requires RoleSet(roles1) == RoleSet(roles2)
    ensures Admits(user, Some(roles1)) == Admits(user, Some(roles2))
  {
    if |roles1| > 0 {
      assert roles1[0] in RoleSet(roles2);
    }
    if |roles2| > 0 {
      assert roles2[0] in RoleSet(roles1);
    }
  }

  /** An active user holding no role is turned away whenever roles are required. */
  lemma NoRolesRejected(user: UserRow, requiredRoles: seq<string>)
    requires user.isActive && user.roles == [] && |requiredRoles| > 0
    ensures !Admits(Some(user), Some(requiredRoles))
  {
    assert RoleSet(user.roles) == {};
  }

  /** Granting the user more roles never turns them away from a route that
      admitted them. */
  lemma ExtraUserRolesStillAdmit(user: UserRow, extra: seq<string>, requiredRoles: Option<seq<string>>)
    requires Admits(Some(user), requiredRoles)
    ensures Admits(Some(user.(roles := user.roles + extra)), requiredRoles)
  {
    if RequiresRoles(requiredRoles) {
      var i :| 0 <= i < |requiredRoles.value| && requiredRoles.value[i] in user.roles;
      assert requiredRoles.value[i] in user.roles + extra;
    }
  }

  /** Requiring more roles never turns away a user who was admitted: the rule is
      "any one of", not "all of". */
  lemma MoreRolesStillAdmit(user: Option<UserRow>, roles: seq<string>, extra: seq<string>)
    requires RequiresRoles(Some(roles)) && Admits(user, Some(roles))
    ensures Admits(user, Some(roles + extra))
  {
    var x :| x in RoleSet(roles) * RoleSet(user.value.roles);
    assert x in RoleSet(roles + extra);
  }
}
