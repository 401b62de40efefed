/** The admin test the partner-facing edge functions share: the caller is an
    admin when a profile row was found for them and its role is `super_admin`
    or `airline_admin`. */
module Roles {
  import opened Opt
  import opened Json
  import opened Tables

  const AdminRoles: set<string> := {"super_admin", "airline_admin"}

  /** `profile && ['super_admin', 'airline_admin'].includes(profile.role)`. */
  predicate IsAdmin(profile: Option<Row>) {
    profile.Some? && "role" in profile.value && profile.value["role"].Str?
    && profile.value["role"].s in AdminRoles
  }

  /** The caller's admin status is exactly "a profile exists and names one of
      the two admin roles"; no profile means non-admin. */
  lemma IsAdminExactly(profile: Option<Row>)
    ensures IsAdmin(profile) <==>
      exists role :: role in AdminRoles && profile.Some? && FieldIs(profile.value, "role", Str(role))
    ensures profile.None? ==> !IsAdmin(profile)
  {
    if IsAdmin(profile) {
      var role := profile.value["role"].s;
      assert FieldIs(profile.value, "role", Str(role));
    }
  }

  function UserIs(userId: string): Row -> bool {
    (row: Row) => FieldIs(row, "user_id", Str(userId))
  }

  /** `from('profiles').select('role').eq('user_id', user).single()`: the
      caller's profile when exactly one row is theirs. */
  function ProfileOf(profiles: seq<Row>, userId: string): (p: Option<Row>)
    ensures p.Some? <==> Single(profiles, UserIs(userId)).One?
    ensures p.Some? ==> p.value in profiles && FieldIs(p.value, "user_id", Str(userId))
  {
    var found := Single(profiles, UserIs(userId));
    if found.One? then Some(profiles[found.index]) else None
  }
}
