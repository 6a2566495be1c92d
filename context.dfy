/**
 * `buildContext`: the per-request context, with the auth provider's result
 * spread over the pre-fetched object.
 */
module ContextBuilder {
  import opened Values
  import opened Store
  import opened Types

  /** The security context: `{object, ...authResult}`, or `{object}` when the
      provider is absent or resolves to a nullish value. */
  function SecurityFrom(obj: Value, authResult: Option<AuthResult>): (security: SecurityContext)
    ensures security.obj == obj
    ensures authResult.None? ==> security.user.None? && security.isAuthenticated.None?
    ensures authResult.Some? ==> security.user == authResult.value.user
    ensures authResult.Some? ==> security.isAuthenticated == Some(authResult.value.isAuthenticated)
  {
    match authResult
    case None => SecurityContext(obj, None, None)
    case Some(a) => SecurityContext(obj, Some(a.isAuthenticated), a.user)
  }

  /** `buildContext`: a provider that throws makes the whole step throw. */
  function BuildContext(auth: Option<AuthProvider>, request: Request, model: string, obj: Value, db: Database)
    : (r: Result<Context>)
    ensures r.Threw? <==> auth.Some? && auth.value(request).Threw?
    ensures r.Threw? ==> r.error == auth.value(request).error
    ensures r.Ok? ==> r.value.model == model && r.value.db == db
    ensures r.Ok? ==> r.value.previousObject == obj && r.value.security.obj == obj
  {
    var outcome := match auth case None => Ok(None) case Some(provider) => provider(request);
    match outcome
    case Threw(e) => Threw(e)
    case Ok(authResult) => Ok(Context(model, SecurityFrom(obj, authResult), obj, db))
  }

  /** Without an auth provider there is no user and no authentication flag:
      a security predicate sees an absent user. */
  lemma {:induction false} NoProviderNoUser(request: Request, model: string, obj: Value, db: Database)
    ensures BuildContext(None, request, model, obj, db)
         == Ok(Context(model, SecurityContext(obj, None, None), obj, db))
  {
  }

  /** The provider's user is the one the security check will see. */
  lemma {:induction false} ProviderUserReachesContext(auth: AuthProvider, request: Request, model: string, obj: Value, db: Database)
    requires auth(request).Ok? && auth(request).value.Some?
    ensures BuildContext(Some(auth), request, model, obj, db).Ok?
    ensures BuildContext(Some(auth), request, model, obj, db).value.security.user == auth(request).value.value.user
  {
  }
}
