/** The `ProtectedRoute` component: while the session loads it shows a
    spinner; once loaded it sends a visitor without a user to `/auth` when
    the route needs one, and a user whose role is not allowed to `/`,
    rendering nothing in both cases; otherwise it renders its children. */
module ProtectedRoute {
  import opened Opt

  /** The component's props, and their defaults. */
  datatype Props = Props(requireAuth: bool, allowedRoles: seq<string>)

  const DefaultProps := Props(true, [])

  /** The profile as the auth context holds it; its role may be null. */
  datatype Profile = Profile(role: Option<string>)

  /** What `useAuth()` gives the component. */
  datatype AuthState = AuthState(user: Option<string>, profile: Option<Profile>, loading: bool)

  /** `profile.role || ''` */
  function RoleOf(p: Profile): string {
    if p.role.Some? then p.role.value else ""
  }

  /** `allowedRoles.length > 0 && user && profile &&
      !allowedRoles.includes(profile.role || '')` */
  predicate RoleRefused(props: Props, s: AuthState) {
    |props.allowedRoles| > 0 && s.user.Some? && s.profile.Some? && RoleOf(s.profile.value) !in props.allowedRoles
  }

  /** The effect: where the component navigates to, if anywhere. */
  function Redirect(props: Props, s: AuthState): Option<string> {
    if s.loading then None
    else if props.requireAuth && s.user.None? then Some("/auth")
    else if RoleRefused(props, s) then Some("/")
    else None
  }

  datatype Rendered = Spinner | Nothing | Children

  /** What the component renders. */
  function Render(props: Props, s: AuthState): Rendered {
    if s.loading then Spinner
    else if props.requireAuth && s.user.None? then Nothing
    else if RoleRefused(props, s) then Nothing
    else Children
  }

  /** The render and the effect agree: once loaded, the component renders
      nothing exactly when it navigates away; while loading it shows the
      spinner and takes no decision. The children render exactly when the
      session is loaded, a user is present or not required, and the role
      check passes. */
  lemma RenderAgreesWithRedirect(props: Props, s: AuthState)
    ensures s.loading <==> Render(props, s) == Spinner
    ensures s.loading ==> Redirect(props, s) == None
    ensures !s.loading ==> (Render(props, s) == Nothing <==> Redirect(props, s).Some?)
    ensures Render(props, s) == Children <==>
      !s.loading && (!props.requireAuth || s.user.Some?) && !RoleRefused(props, s)
  {
  }

  /** A visitor without a user who opens a route that needs one is sent to
      `/auth`; one whose role is refused is sent to `/`. */
  lemma RedirectTargets(props: Props, s: AuthState)
    requires !s.loading
    ensures props.requireAuth && s.user.None? ==> Redirect(props, s) == Some("/auth")
    ensures s.user.Some? && RoleRefused(props, s) ==> Redirect(props, s) == Some("/")
    ensures Redirect(props, s).Some? ==> Redirect(props, s).value in {"/auth", "/"}
  {
  }

  /** With no allowed roles listed there is no role check: the profile
      makes no difference. A profile that has not loaded yet skips the role
      check too, and a null role is checked as ''. */
  lemma RoleCheckScope(props: Props, s: AuthState, p: Option<Profile>)
    ensures props.allowedRoles == [] ==>
      Render(props, s) == Render(props, s.(profile := p)) && Redirect(props, s) == Redirect(props, s.(profile := p))
    ensures s.profile.None? && !s.loading && s.user.Some? ==> Render(props, s) == Children
    ensures s.profile == Some(Profile(None)) && !s.loading && s.user.Some? ==>
      (Render(props, s) == Children <==> props.allowedRoles == [] || "" in props.allowedRoles)
  {
  }

  /** With the default props every route needs a user and admits any role;
      a route that does not need a user renders for a visitor without one. */
  lemma Defaults(s: AuthState, roles: seq<string>)
    requires !s.loading
    ensures Render(DefaultProps, s) == (if s.user.None? then Nothing else Children)
    ensures s.user.None? ==> Render(Props(false, roles), s) == Children
  {
  }
}
