/** server/middleware/auth.middleware.js: the three gates a request passes
    before its handler. Each gate's decision is a function of the request
    context it reads; the `Request` class applies that decision to the
    fields `req` carries, as the middleware does before calling `next`.

    The file imports neither `Membership` nor `Op`, so the live membership
    lookup in `hasMembership` throws and answers 500 whenever it runs.
    `MembershipGate` is the decision that lookup was written to make;
    `MembershipGateAsWritten` is what the file does. */
module AuthMiddleware {

  import opened Common
  import opened Models
  import opened Strings
  import opened Db

  /** The payload of a session token as `jwt.verify` decodes it. Tokens
      issued at registration carry no membership flag. */
  datatype Claims = Claims(id: UserId, role: string, hasMembership: Option<bool>)

  /** What the gates have written onto `req` for the handlers after them. */
  datatype Ctx = Ctx(userId: Option<UserId>, userRole: Option<string>, hasMembership: Option<bool>)

  const Anonymous := Ctx(None, None, None)

  /** A gate either calls `next` or ends the request with an error. */
  datatype Verdict = Next | Halt(error: HttpError)

  const NoTokenProvided := Error(401, "No token provided")
  const InvalidOrExpiredToken := Error(401, "Invalid or expired token")
  const InvalidToken := Error(401, "Invalid token")
  const RequiresAdmin := Error(403, "Requires admin privileges")
  const MembershipLookupFailed := Error(500, "Server error checking membership")

  /** `req.headers.authorization?.split(" ")[1]`, kept only when truthy. */
  function TokenFromHeader(header: Option<string>): (token: Option<string>)
    ensures token.Some? ==> token.value != "" && ' ' !in token.value
    ensures header.None? ==> token.None?
  {
    if header.None? then None
    else
      var parts := Split(header.value, ' ');
      if |parts| < 2 || parts[1] == "" then None else Some(parts[1])
  }

  /** `verifyToken`'s decision: the claims it copies onto the request, or
      the 401 it answers with. `verify` stands for `jwt.verify` with the
      server's secret and clock: `None` for a bad signature or an expired
      token. `users` is the user table `User.findByPk` reads. */
  function Authenticate(header: Option<string>, verify: string -> Option<Claims>, users: map<UserId, User>): (r: Result<Claims>)
    ensures r.Err? ==> r.error.Status() == 401
    ensures TokenFromHeader(header).None? ==> r == Err(NoTokenProvided)
    ensures TokenFromHeader(header).Some? && verify(TokenFromHeader(header).value).None? ==> r == Err(InvalidOrExpiredToken)
    ensures r.Ok? <==> (var t := TokenFromHeader(header);
                        t.Some? && verify(t.value).Some? && verify(t.value).value.id in users)
    ensures r.Ok? ==> r.value == verify(TokenFromHeader(header).value).value
  {
    match TokenFromHeader(header)
    case None => Err(NoTokenProvided)
    case Some(token) =>
      match verify(token)
      case None => Err(InvalidOrExpiredToken)
      case Some(claims) => if claims.id in users then Ok(claims) else Err(InvalidToken)
  }

  /** The context `verifyToken` leaves: id, role and flag all come from the token. */
  function ContextOf(c: Claims): Ctx
  {
    Ctx(Some(c.id), Some(c.role), c.hasMembership)
  }

  /** Only a user's existence is looked up: changing a stored user's role
      (or any other column) does not change what an existing token grants
      until a new token is issued. */
  lemma StoredRoleIsNotConsulted(header: Option<string>, verify: string -> Option<Claims>,
                                 users: map<UserId, User>, u: UserId, changed: User)
    requires u in users
    ensures Authenticate(header, verify, users[u := changed]) == Authenticate(header, verify, users)
  {
  }

  /** `isAdmin`'s decision. */
  function AdminGate(ctx: Ctx): (v: Verdict)
    ensures v.Next? <==> ctx.userRole == Some(AdminRole)
    ensures v.Halt? ==> v.error == RequiresAdmin
  {
    if ctx.userRole != Some(AdminRole) then Halt(RequiresAdmin) else Next
  }

  /** `hasMembership`'s decision: the context it passes on, or its error.
      Admins pass, then a truthy token flag passes, and only then is the
      membership table consulted. Without a user id on the request the
      lookup's `where` holds `undefined`, which the ORM rejects. */
  function MembershipGate(ctx: Ctx, memberships: map<MembershipId, Membership>, now: int): (r: Result<Ctx>)
    ensures r.Ok? <==> (ctx.userRole == Some(AdminRole) || IsTrue(ctx.hasMembership)
                        || (ctx.userId.Some? && LiveMembership(memberships, ctx.userId.value, now)))
    ensures r.Ok? ==> r.value.userId == ctx.userId && r.value.userRole == ctx.userRole
    ensures r.Ok? && ctx.userRole != Some(AdminRole) ==> IsTrue(r.value.hasMembership)
    ensures r.Ok? && (ctx.userRole == Some(AdminRole) || IsTrue(ctx.hasMembership)) ==> r.value == ctx
    ensures r.Err? && ctx.userId.Some? ==> r.error == MembershipRequired
  {
    if ctx.userRole == Some(AdminRole) then Ok(ctx)
    else if IsTrue(ctx.hasMembership) then Ok(ctx)
    else if ctx.userId.None? then Err(MembershipLookupFailed)
    else if LiveMembership(memberships, ctx.userId.value, now) then Ok(ctx.(hasMembership := Some(true)))
    else Err(MembershipRequired)
  }

  /** Admins and truthy token flags are let through without any lookup:
      the decision does not depend on the membership table or the clock. */
  lemma MembershipGateSkipsLookup(ctx: Ctx, ms1: map<MembershipId, Membership>, ms2: map<MembershipId, Membership>,
                                  now1: int, now2: int)
    requires ctx.userRole == Some(AdminRole) || IsTrue(ctx.hasMembership)
    ensures MembershipGate(ctx, ms1, now1) == MembershipGate(ctx, ms2, now2) == Ok(ctx)
  {
  }

  /** A token minted without a live membership is re-checked on every
      request: once some membership row of the user is active and unexpired,
      the same token passes and the request is marked as a member's. */
  lemma StaleTokenRevalidated(ctx: Ctx, ms: map<MembershipId, Membership>, k: MembershipId, m: Membership, now: int)
    requires ctx.userId.Some? && ctx.userRole != Some(AdminRole) && !IsTrue(ctx.hasMembership)
    requires !LiveMembership(ms, ctx.userId.value, now)
    requires m.userId == ctx.userId.value && IsLive(m, now)
    ensures MembershipGate(ctx, ms, now) == Err(MembershipRequired)
    ensures MembershipGate(ctx, ms[k := m], now) == Ok(ctx.(hasMembership := Some(true)))
  {
    assert ms[k := m][k] == m;
  }

  /** `hasMembership` as written: the lookup names `Membership` and `Op`,
      neither of which the file imports, so reaching it throws and the
      `catch` answers 500. Only admins and truthy token flags get through. */
  function MembershipGateAsWritten(ctx: Ctx): (r: Result<Ctx>)
    ensures r.Ok? <==> ctx.userRole == Some(AdminRole) || IsTrue(ctx.hasMembership)
    ensures r.Ok? ==> r.value == ctx
    ensures r.Err? ==> r.error == MembershipLookupFailed
  {
    if ctx.userRole == Some(AdminRole) then Ok(ctx)
    else if IsTrue(ctx.hasMembership) then Ok(ctx)
    else Err(MembershipLookupFailed)
  }

  /** A member whose token carries no flag (every token from `register`)
      and who holds a live membership is let through by the intended gate
      and refused with a 500 by the gate as written. */
  lemma MembershipGateAsWrittenRefusesMembers(ctx: Ctx, ms: map<MembershipId, Membership>, now: int)
    requires ctx.userId.Some? && ctx.userRole != Some(AdminRole) && !IsTrue(ctx.hasMembership)
    requires LiveMembership(ms, ctx.userId.value, now)
    ensures MembershipGate(ctx, ms, now) == Ok(ctx.(hasMembership := Some(true)))
    ensures MembershipGateAsWritten(ctx) == Err(MembershipLookupFailed)
  {
  }

  /** The Express request object as the gates see and change it. */
  class Request {
    /** The `Authorization` header, if the request has one. */
    const authorization: Option<string>
    var userId: Option<UserId>
    var userRole: Option<string>
    var hasMembership: Option<bool>

    constructor (authorization: Option<string>)
      ensures this.authorization == authorization
      ensures Context() == Anonymous
    {
      this.authorization := authorization;
      userId, userRole, hasMembership := None, None, None;
    }

    function Context(): Ctx
      reads this`userId, this`userRole, this`hasMembership
    {
      Ctx(userId, userRole, hasMembership)
    }

    /** `verifyToken`: on success copies id, role and flag from the token
        and calls `next`; otherwise answers 401 and leaves `req` as it was. */
    method VerifyToken(db: Store, verify: string -> Option<Claims>) returns (v: Verdict)
      modifies this`userId, this`userRole, this`hasMembership
      ensures match Authenticate(authorization, verify, db.users)
              case Ok(c) => v == Next && Context() == ContextOf(c)
              case Err(e) => v == Halt(e) && Context() == old(Context())
    {
      match Authenticate(authorization, verify, db.users)
      case Ok(c) =>
        userId, userRole, hasMembership := Some(c.id), Some(c.role), c.hasMembership;
        v := Next;
      case Err(e) =>
        v := Halt(e);
    }

    /** `isAdmin`: passes exactly the requests whose token role is "admin". */
    method IsAdmin() returns (v: Verdict)
      ensures v.Next? <==> userRole == Some(AdminRole)
      ensures v == AdminGate(Context())
    {
      v := AdminGate(Context());
    }

    /** `hasMembership`: after a successful live check `req.hasMembership`
        becomes true; nothing else on `req` changes. */
    method HasMembership(db: Store, now: int) returns (v: Verdict)
      modifies this`hasMembership
      ensures match MembershipGate(old(Context()), db.memberships, now)
              case Ok(c) => v == Next && Context() == c
              case Err(e) => v == Halt(e) && Context() == old(Context())
    {
      match MembershipGate(Context(), db.memberships, now)
      case Ok(c) =>
        hasMembership := c.hasMembership;
        v := Next;
      case Err(e) =>
        v := Halt(e);
    }
  }
}
