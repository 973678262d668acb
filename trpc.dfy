/** The request context and the authentication guard in front of every
    protected procedure (src/server/api/trpc.ts). */
module Trpc {
  import opened Wrappers

  /** The signed-in user carried by an authentication session. */
  datatype SessionUser = SessionUser(id: string, name: Option<string>, email: Option<string>)

  /** What the identity provider hands back: a session that may lack a user. */
  datatype AuthSession = AuthSession(user: Option<SessionUser>, expires: string)

  /** The outcome of asking for the server session: a session or null, or an exception. */
  datatype SessionLookup = Resolved(session: Option<AuthSession>) | Threw(reason: string)

  /** The per-request context; the database handle is the store itself and is not repeated here. */
  datatype Context = Context(session: Option<AuthSession>)

  /** The context a protected procedure sees once the guard has let it through. */
  datatype AuthedContext = AuthedContext(session: AuthSession, user: SessionUser)

  datatype ErrorCode = BadRequest | Unauthorized | NotFound | InternalServerError

  datatype TrpcError = TrpcError(code: ErrorCode, message: string)

  /** A `TRPCError` built from a code alone takes the code as its message. */
  const UnauthorizedError := TrpcError(Unauthorized, "UNAUTHORIZED")

  predicate Authenticated(ctx: Context) {
    ctx.session.Some? && ctx.session.value.user.Some?
  }

  /** `createTRPCContext`: a failing session lookup degrades to an anonymous context. */
  function CreateContext(lookup: SessionLookup): (ctx: Context)
    ensures lookup.Threw? ==> !Authenticated(ctx)
    ensures lookup.Resolved? ==> ctx.session == lookup.session
    ensures lookup.Threw? ==> ctx.session == None
  {
    match lookup
    case Resolved(session) => Context(session)
    case Threw(_) => Context(None)
  }

  /** `enforceUserIsAuthed`: fails with UNAUTHORIZED unless there is a session
      with a user, and otherwise passes on that same session and user. */
  function EnforceUserIsAuthed(ctx: Context): (r: Result<AuthedContext, TrpcError>)
    ensures r.Err? <==> !Authenticated(ctx)
    ensures r.Err? ==> r.error == UnauthorizedError
    ensures r.Ok? ==> ctx.session == Some(r.value.session) && r.value.session.user == Some(r.value.user)
  {
    if ctx.session.None? || ctx.session.value.user.None? then
      Err(UnauthorizedError)
    else
      Ok(AuthedContext(ctx.session.value, ctx.session.value.user.value))
  }

  /** `protectedProcedure`: the guard runs first, and the procedure body runs
      only on the context the guard produced. */
  function RunProtected<T>(ctx: Context, procedure: AuthedContext -> Result<T, TrpcError>): (r: Result<T, TrpcError>)
    ensures !Authenticated(ctx) ==> r == Err(UnauthorizedError)
    ensures Authenticated(ctx) ==> r == procedure(EnforceUserIsAuthed(ctx).value)
  {
    match EnforceUserIsAuthed(ctx)
    case Err(e) => Err(e)
    case Ok(authed) => procedure(authed)
  }

  /** A context built after the session lookup threw lets no protected procedure run. */
  lemma FailedLookupIsUnauthorized<T>(reason: string, procedure: AuthedContext -> Result<T, TrpcError>)
    ensures RunProtected(CreateContext(Threw(reason)), procedure) == Err(UnauthorizedError)
  {
  }
}
