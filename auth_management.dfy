/** The `auth-management` edge function: reading one's own profile, the
    admin-only user list, updating one's own profile (a role change is
    dropped unless the caller is a super admin), an admin's update of
    another user's profile, and an admin marking a user verified. The
    profiles table is passed in and handed back. */
module AuthManagement {
  import opened Opt
  import opened Json
  import opened Http
  import opened Tables
  import opened Roles

  /** The request methods the function distinguishes. */
  datatype Verb = Get | Put | Post | OtherVerb

  /** Where a request goes, by method and the last path segment. */
  datatype Endpoint =
    | ReadProfile
    | ListUsers
    | UpdateOwnProfile
    | UpdateUser(userId: string)
    | VerifyUser
    | InvalidEndpoint
    | NotAllowed

  function Route(verb: Verb, action: string): (e: Endpoint)
    ensures verb == OtherVerb <==> e == NotAllowed
    ensures e == InvalidEndpoint <==>
      (verb == Get && action != "profile" && action != "users") || (verb == Post && action != "verify-user")
    ensures e.UpdateUser? ==> e.userId == action && action != "profile"
    ensures verb == Put ==> e == (if action == "profile" then UpdateOwnProfile else UpdateUser(action))
  {
    match verb
    case Get => if action == "profile" then ReadProfile else if action == "users" then ListUsers else InvalidEndpoint
    case Put => if action == "profile" then UpdateOwnProfile else UpdateUser(action)
    case Post => if action == "verify-user" then VerifyUser else InvalidEndpoint
    case OtherVerb => NotAllowed
  }

  /** What a reply carries. */
  datatype Body = Profile(row: Row) | Profiles(rows: seq<Row>)

  /** The table afterwards and the reply. */
  datatype Outcome = Outcome(profiles: seq<Row>, reply: Reply<Body>)

  /** `.update(changes).eq('user_id', target).select().single()` */
  function UpdateProfile(profiles: seq<Row>, target: string, changes: Row): (o: Outcome)
    ensures o.profiles == UpdateWhere(profiles, UserIs(target), MergeWith(changes))
    ensures o.reply.Ok? <==> Single(profiles, UserIs(target)).One?
    ensures o.reply.Ok? ==> o.reply == Ok(200, Profile(Merge(profiles[Single(profiles, UserIs(target)).index], changes)))
    ensures o.reply.Fail? ==> o.reply == Error(400, NotSingle)
  {
    var found := Single(profiles, UserIs(target));
    Outcome(UpdateWhere(profiles, UserIs(target), MergeWith(changes)),
            if found.One? then Ok(200, Profile(Merge(profiles[found.index], changes))) else Error(400, NotSingle))
  }

  /** GET `profile`: the caller's own profile. */
  function ReadOwnProfile(profiles: seq<Row>, userId: string): (r: Reply<Body>)
    ensures r.Ok? <==> Single(profiles, UserIs(userId)).One?
    ensures r.Ok? ==> r.body.Profile? && r.body.row in profiles && FieldIs(r.body.row, "user_id", Str(userId))
    ensures r.Fail? ==> r == Error(404, NotSingle)
  {
    var found := Single(profiles, UserIs(userId));
    if found.One? then Ok(200, Profile(profiles[found.index])) else Error(404, NotSingle)
  }

  /** GET `users`: every profile, newest first, for admins only. */
  function ListAllUsers(profiles: seq<Row>, userId: string): (r: Reply<Body>)
    ensures !IsAdmin(ProfileOf(profiles, userId)) ==> r == Error(403, "Insufficient permissions")
    ensures IsAdmin(ProfileOf(profiles, userId)) ==>
      r.Ok? && r.body.Profiles? && SortedDesc(r.body.rows, CreatedAt) && multiset(r.body.rows) == multiset(profiles)
  {
    if !IsAdmin(ProfileOf(profiles, userId)) then Error(403, "Insufficient permissions")
    else Ok(200, Profiles(SortDesc(profiles, CreatedAt)))
  }

  predicate IsSuperAdmin(profile: Option<Row>) {
    profile.Some? && FieldIs(profile.value, "role", Str("super_admin"))
  }

  /** `if (updateData.role) { look the caller up; unless super_admin,
      delete updateData.role }`. The caller's profile is only read when the
      payload carries a truthy role. */
  method StripRoleUnlessSuperAdmin(updateData: Row, profiles: seq<Row>, userId: string) returns (r: Row)
    ensures !IsTruthy(updateData, "role") ==> r == updateData
    ensures IsTruthy(updateData, "role") && IsSuperAdmin(ProfileOf(profiles, userId)) ==> r == updateData
    ensures IsTruthy(updateData, "role") && !IsSuperAdmin(ProfileOf(profiles, userId)) ==>
      r == updateData - {"role"}
  {
    r := updateData;
    if IsTruthy(updateData, "role") {
      var currentProfile := ProfileOf(profiles, userId);
      if !IsSuperAdmin(currentProfile) {
        r := r - {"role"};
      }
    }
  }

  /** PUT `profile`: the caller's own profile, role stripped as above. */
  method UpdateOwn(profiles: seq<Row>, userId: string, updateData: Row) returns (o: Outcome)
    ensures var changes := if IsTruthy(updateData, "role") && !IsSuperAdmin(ProfileOf(profiles, userId))
                           then updateData - {"role"} else updateData;
      o == UpdateProfile(profiles, userId, changes)
  {
    var changes := StripRoleUnlessSuperAdmin(updateData, profiles, userId);
    o := UpdateProfile(profiles, userId, changes);
  }

  /** A caller who is not a super admin cannot give themselves a role
      through their own profile: every profile's role is either what it was
      or the falsy value the payload sent (a falsy role is not stripped). Every
      other column of the payload reaches the caller's row. */
  lemma {:induction false} SelfUpdateKeepsRole(profiles: seq<Row>, userId: string, updateData: Row, i: int)
    requires 0 <= i < |profiles|
    requires !IsSuperAdmin(ProfileOf(profiles, userId))
    ensures var changes := if IsTruthy(updateData, "role") then updateData - {"role"} else updateData;
      var after := UpdateProfile(profiles, userId, changes).profiles[i];
      && ("role" in after ==> ("role" in profiles[i] && after["role"] == profiles[i]["role"])
                              || !Truthy(after["role"]))
      && (UserIs(userId)(profiles[i]) ==>
            forall k :: k in updateData && k != "role" ==> FieldIs(after, k, updateData[k]))
  {
    var changes := if IsTruthy(updateData, "role") then updateData - {"role"} else updateData;
    var after := UpdateProfile(profiles, userId, changes).profiles[i];
    assert after == if UserIs(userId)(profiles[i]) then Merge(profiles[i], changes) else profiles[i];
    assert "role" in changes ==> !Truthy(changes["role"]);
    if UserIs(userId)(profiles[i]) {
      forall k | k in updateData && k != "role"
        ensures FieldIs(after, k, updateData[k])
      {
        assert k in changes && changes[k] == updateData[k];
      }
    }
  }

  function AdminUpdate(profiles: seq<Row>, userId: string, target: string, updateData: Row): (o: Outcome)
    ensures !IsAdmin(ProfileOf(profiles, userId)) ==>
      o == Outcome(profiles, Error(403, "Insufficient permissions"))
    ensures IsAdmin(ProfileOf(profiles, userId)) ==> o == UpdateProfile(profiles, target, updateData)
  {
    if !IsAdmin(ProfileOf(profiles, userId)) then Outcome(profiles, Error(403, "Insufficient permissions"))
    else UpdateProfile(profiles, target, updateData)
  }

  /** An admin's update of another user is applied whole, a role included:
      the target's row takes every column of the payload. */
  lemma AdminUpdatePassesRole(profiles: seq<Row>, userId: string, target: string, updateData: Row, i: int)
    requires IsAdmin(ProfileOf(profiles, userId))
    requires 0 <= i < |profiles| && UserIs(target)(profiles[i])
    ensures forall k :: k in updateData ==>
      FieldIs(AdminUpdate(profiles, userId, target, updateData).profiles[i], k, updateData[k])
  {
  }

  /** The `user_id` of a verify-user body, as a string when it is one. */
  function TargetOf(body: Row): string {
    if "user_id" in body && body["user_id"].Str? then body["user_id"].s else ""
  }

  /** POST `verify-user`: mark the target verified, for admins only. */
  function Verify(profiles: seq<Row>, userId: string, body: Row): (o: Outcome)
    ensures !IsAdmin(ProfileOf(profiles, userId)) ==>
      o == Outcome(profiles, Error(403, "Insufficient permissions"))
    ensures IsAdmin(ProfileOf(profiles, userId)) ==>
      o == UpdateProfile(profiles, TargetOf(body), map["is_verified" := Bool(true)])
  {
    if !IsAdmin(ProfileOf(profiles, userId)) then Outcome(profiles, Error(403, "Insufficient permissions"))
    else UpdateProfile(profiles, TargetOf(body), map["is_verified" := Bool(true)])
  }

  /** Verifying marks exactly the target's profile verified and leaves every
      other profile, and every other column, as it was. */
  lemma VerifyMarksTarget(profiles: seq<Row>, userId: string, body: Row, i: int)
    requires IsAdmin(ProfileOf(profiles, userId)) && 0 <= i < |profiles|
    ensures var after := Verify(profiles, userId, body).profiles;
      && |after| == |profiles|
      && (UserIs(TargetOf(body))(profiles[i]) ==>
            && FieldIs(after[i], "is_verified", Bool(true))
            && forall k :: k in profiles[i] && k != "is_verified" ==> FieldIs(after[i], k, profiles[i][k]))
      && (!UserIs(TargetOf(body))(profiles[i]) ==> after[i] == profiles[i])
  {
  }

  /** The three admin routes refuse everyone else with 403 and write nothing. */
  lemma {:induction false} AdminGate(profiles: seq<Row>, userId: string, target: string, updateData: Row, body: Row)
    requires !IsAdmin(ProfileOf(profiles, userId))
    ensures ListAllUsers(profiles, userId) == Error(403, "Insufficient permissions")
    ensures AdminUpdate(profiles, userId, target, updateData).profiles == profiles
    ensures AdminUpdate(profiles, userId, target, updateData).reply.status == 403
    ensures Verify(profiles, userId, body).profiles == profiles
    ensures Verify(profiles, userId, body).reply.status == 403
  {
    var a := AdminUpdate(profiles, userId, target, updateData);
    var v := Verify(profiles, userId, body);
    assert a.reply.Fail? && v.reply.Fail?;
  }

  /** A whole request: route it, then run the handler. */
  method Handle(verb: Verb, action: string, profiles: seq<Row>, userId: string, body: Row) returns (o: Outcome)
    ensures Route(verb, action) == NotAllowed ==> o == Outcome(profiles, Error(405, "Method not allowed"))
    ensures Route(verb, action) == InvalidEndpoint ==> o == Outcome(profiles, Error(404, "Invalid endpoint"))
    ensures Route(verb, action) == ReadProfile ==> o == Outcome(profiles, ReadOwnProfile(profiles, userId))
    ensures Route(verb, action) == ListUsers ==> o == Outcome(profiles, ListAllUsers(profiles, userId))
    ensures Route(verb, action) == UpdateOwnProfile ==>
      var changes := if IsTruthy(body, "role") && !IsSuperAdmin(ProfileOf(profiles, userId))
                     then body - {"role"} else body;
      o == UpdateProfile(profiles, userId, changes)
    ensures Route(verb, action) == UpdateUser(action) ==> o == AdminUpdate(profiles, userId, action, body)
    ensures Route(verb, action) == VerifyUser ==> o == Verify(profiles, userId, body)
  {
    match Route(verb, action)
    case NotAllowed => o := Outcome(profiles, Error(405, "Method not allowed"));
    case InvalidEndpoint => o := Outcome(profiles, Error(404, "Invalid endpoint"));
    case ReadProfile => o := Outcome(profiles, ReadOwnProfile(profiles, userId));
    case ListUsers => o := Outcome(profiles, ListAllUsers(profiles, userId));
    case UpdateOwnProfile => o := UpdateOwn(profiles, userId, body);
    case UpdateUser(target) => o := AdminUpdate(profiles, userId, target, body);
    case VerifyUser => o := Verify(profiles, userId, body);
  }
}
