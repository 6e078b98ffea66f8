/** Server-side identity resolution, the four authorization guards and the
    inactivity guard (server/middleware.ts).

    `verifyToken` and the server's `hasPermission` live in a file that is not part
    of this model; they are passed in as function values, so every result below
    holds whatever they compute. */
module Middleware {
  import opened Js

  /** The prefix `getUserFromRequest` expects: case-sensitive, exactly one space. */
  const BEARER_PREFIX: string := "Bearer "
  /** The one role the inactivity guard exempts. */
  const ADMIN_ROLE: string := "Admin"
  /** Thirty minutes, in milliseconds. */
  const INACTIVITY_TIMEOUT: int := 30 * 60 * 1000

  const AUTH_REQUIRED: string := "Authentication required"
  const INSUFFICIENT_PERMISSIONS: string := "Insufficient permissions"
  const INSUFFICIENT_FOR_ACTION: string := "Insufficient permissions for this action"
  const SESSION_EXPIRED: string := "Session expired due to inactivity"
  const INACTIVITY_CODE: string := "INACTIVITY_TIMEOUT"

  /** Status codes of sections 15.5.2 (401 Unauthorized) and 15.5.4 (403 Forbidden) of RFC 9110. */
  const UNAUTHORIZED: int := 401
  const FORBIDDEN: int := 403

  /** The claims `verifyToken` decodes from a token it accepts. */
  datatype Claims = Claims(userId: string, userRole: Option<string>, userName: Option<string>,
                           userEmail: Option<string>, iat: int)

  /** The caller identity a guard attaches as `req.user`; `tokenIat` is set only on the token path. */
  datatype Identity = Identity(id: string, role: Option<string>, name: Option<string>,
                               email: Option<string>, tokenIat: Option<int>)

  /** The JSON body of an error response. */
  datatype ErrorBody = ErrorBody(error: string, code: Option<string>)

  /** What a middleware does with a request: call `next`, or end it with a status and a JSON body. */
  datatype Outcome = Next | Reject(status: int, body: ErrorBody)

  /** `verifyToken`: the decoded claims, or `None` when the token does not verify. */
  type Verifier = string -> Option<Claims>

  /** The server's `hasPermission(role, resource, action)`. */
  type PermissionCheck = (Option<string>, string, string) -> bool

  /** A server-side session record. The identity fields are only read here; `""`
      stands for a missing `userId`, both being falsy. */
  class Session {
    const userId: string
    const userRole: Option<string>
    const userName: Option<string>
    const userEmail: Option<string>
    var lastActivity: Option<int>
    var destroyed: bool

    constructor (userId: string, userRole: Option<string>, userName: Option<string>,
                 userEmail: Option<string>, lastActivity: Option<int>)
      ensures this.userId == userId && this.userRole == userRole
      ensures this.userName == userName && this.userEmail == userEmail
      ensures this.lastActivity == lastActivity && !destroyed
    {
      this.userId := userId;
      this.userRole := userRole;
      this.userName := userName;
      this.userEmail := userEmail;
      this.lastActivity := lastActivity;
      this.destroyed := false;
    }
  }

  /** An incoming request: its `Authorization` header, its session if any, and the
      `user` field the guards attach. */
  class Request {
    const authorization: Option<string>
    const session: Session?
    var user: Option<Identity>

    constructor (authorization: Option<string>, session: Session?)
      ensures this.authorization == authorization && this.session == session && user == None
    {
      this.authorization := authorization;
      this.session := session;
      this.user := None;
    }
  }

  // ---------------------------------------------------------------------------
  // Identity resolution

  /** The token of a `Bearer ` header, `authHeader.substring(7)`. */
  function BearerToken(header: Option<string>): (token: Option<string>)
    ensures token.Some? <==> header.Some? && StartsWith(header.value, BEARER_PREFIX)
    ensures token.Some? ==> header.value == BEARER_PREFIX + token.value
  {
    if header.Some? && StartsWith(header.value, BEARER_PREFIX)
    then Some(header.value[7..])
    else None
  }

  lemma BearerHeaderRoundTrip(token: string)
    ensures BearerToken(Some(BEARER_PREFIX + token)) == Some(token)
  {
  }

  /** The scheme test is case-sensitive and wants exactly one space: a second space becomes part of the token. */
  lemma BearerSchemeIsExact()
    ensures BearerToken(Some("bearer abc")) == None
    ensures BearerToken(Some("Bearer")) == None
    ensures BearerToken(Some("Bearer  abc")) == Some(" abc")
  {
    assert "bearer abc"[..7] != BEARER_PREFIX by { assert "bearer abc"[0] == 'b'; }
    BearerHeaderRoundTrip(" abc");
    assert BEARER_PREFIX + " abc" == "Bearer  abc";
  }

  /** A session with a truthy `userId`. */
  predicate HasSessionUser(s: Session?)
  {
    s != null && s.userId != ""
  }

  /** The claims of a verified bearer token, if the request carries one. */
  function VerifiedClaims(req: Request, verify: Verifier): Option<Claims>
  {
    match BearerToken(req.authorization)
    case Some(token) => verify(token)
    case None => None
  }

  /** `getUserFromRequest`: a verified bearer token wins, then a session with a user, then nothing. */
  function GetUserFromRequest(req: Request, verify: Verifier): (u: Option<Identity>)
    ensures u.None? <==> VerifiedClaims(req, verify).None? && !HasSessionUser(req.session)
    ensures u.Some? ==> (u.value.tokenIat.Some? <==> VerifiedClaims(req, verify).Some?)
  {
    var token := BearerToken(req.authorization);
    if token.Some? && verify(token.value).Some? then
      var decoded := verify(token.value).value;
      Some(Identity(decoded.userId, decoded.userRole, decoded.userName, decoded.userEmail, Some(decoded.iat)))
    else if HasSessionUser(req.session) then
      Some(Identity(req.session.userId, req.session.userRole, req.session.userName, req.session.userEmail, None))
    else
      None
  }

  /** A `Bearer ` header whose token verifies yields the claims' identity, whatever session is present. */
  lemma VerifiedTokenWins(req: Request, verify: Verifier, token: string)
    requires req.authorization == Some(BEARER_PREFIX + token)
    requires verify(token).Some?
    ensures var c := verify(token).value;
      GetUserFromRequest(req, verify) == Some(Identity(c.userId, c.userRole, c.userName, c.userEmail, Some(c.iat)))
  {
  }

  /** No header, a header without the exact prefix, or a token that does not verify:
      the session decides, without any error. */
  predicate NoVerifiedToken(req: Request, verify: Verifier)
  {
    VerifiedClaims(req, verify).None?
  }

  lemma FallsThroughToSession(req: Request, verify: Verifier)
    requires NoVerifiedToken(req, verify)
    requires HasSessionUser(req.session)
    ensures var s := req.session;
      GetUserFromRequest(req, verify) == Some(Identity(s.userId, s.userRole, s.userName, s.userEmail, None))
  {
  }

  lemma NoCredentialsNoIdentity(req: Request, verify: Verifier)
    requires NoVerifiedToken(req, verify)
    requires !HasSessionUser(req.session)
    ensures GetUserFromRequest(req, verify) == None
  {
  }

  // ---------------------------------------------------------------------------
  // Guards

  /** The four guards; a permission guard carries the server's permission check it closes over. */
  datatype Guard =
    | AuthGuard
    | RoleGuard(allowedRoles: seq<string>)
    | PermissionGuard(resource: string, action: string, hasPermission: PermissionCheck)
    | AttachGuard

  /** Which resolved identities a guard lets through, stated without the order of the checks. */
  predicate Admits(g: Guard, u: Option<Identity>)
  {
    match g
    case AttachGuard => true
    case AuthGuard => u.Some?
    case RoleGuard(roles) => u.Some? && OrEmpty(u.value.role) in roles
    case PermissionGuard(resource, action, hasPermission) => u.Some? && hasPermission(u.value.role, resource, action)
  }

  /** The message a guard sends when it refuses an authenticated caller. */
  function ForbiddenMessage(g: Guard): string
  {
    if g.RoleGuard? then INSUFFICIENT_PERMISSIONS else INSUFFICIENT_FOR_ACTION
  }

  /** The decision a guard takes, in the source's order: 401 is checked before 403. */
  function Decide(g: Guard, u: Option<Identity>): (o: Outcome)
    ensures o.Next? <==> Admits(g, u)
    ensures o.Reject? && u.None? ==> o == Reject(UNAUTHORIZED, ErrorBody(AUTH_REQUIRED, None))
    ensures o.Reject? && u.Some? ==>
      (g.RoleGuard? || g.PermissionGuard?) && o == Reject(FORBIDDEN, ErrorBody(ForbiddenMessage(g), None))
  {
    if g.AttachGuard? then Next
    else if u.None? then Reject(UNAUTHORIZED, ErrorBody(AUTH_REQUIRED, None))
    else
      match g
      case AuthGuard => Next
      case AttachGuard => Next
      case RoleGuard(roles) =>
        if OrEmpty(u.value.role) !in roles then Reject(FORBIDDEN, ErrorBody(INSUFFICIENT_PERMISSIONS, None))
        else Next
      case PermissionGuard(resource, action, hasPermission) =>
        if !hasPermission(u.value.role, resource, action) then Reject(FORBIDDEN, ErrorBody(INSUFFICIENT_FOR_ACTION, None))
        else Next
  }

  /** A caller without a role passes a role guard exactly when `""` is among the allowed roles. */
  lemma MissingRoleMatchesEmpty(roles: seq<string>, u: Identity)
    requires u.role.None? || u.role == Some("")
    ensures Decide(RoleGuard(roles), Some(u)).Next? <==> "" in roles
  {
  }

  /** `requireRole('Admin')` refuses a Viewer with 403 and lets an Admin through; nobody gets 403 before 401. */
  lemma RoleGuardExamples(viewer: Identity, admin: Identity)
    requires viewer.role == Some("Viewer") && admin.role == Some(ADMIN_ROLE)
    ensures Decide(RoleGuard([ADMIN_ROLE]), Some(viewer)) == Reject(FORBIDDEN, ErrorBody(INSUFFICIENT_PERMISSIONS, None))
    ensures Decide(RoleGuard([ADMIN_ROLE]), Some(admin)) == Next
    ensures Decide(RoleGuard([""]), None) == Reject(UNAUTHORIZED, ErrorBody(AUTH_REQUIRED, None))
  {
  }

  /** `requireAuth`. */
  method RequireAuth(req: Request, verify: Verifier) returns (o: Outcome)
    modifies req`user
    ensures o == Decide(AuthGuard, GetUserFromRequest(req, verify))
    ensures req.user == if o.Next? then GetUserFromRequest(req, verify) else old(req.user)
  {
    var user := GetUserFromRequest(req, verify);
    if user.None? {
      return Reject(UNAUTHORIZED, ErrorBody(AUTH_REQUIRED, None));
    }
    req.user := user;
    o := Next;
  }

  /** `requireRole(...allowedRoles)`. */
  method RequireRole(allowedRoles: seq<string>, req: Request, verify: Verifier) returns (o: Outcome)
    modifies req`user
    ensures o == Decide(RoleGuard(allowedRoles), GetUserFromRequest(req, verify))
    ensures req.user == if o.Next? then GetUserFromRequest(req, verify) else old(req.user)
  {
    var user := GetUserFromRequest(req, verify);
    if user.None? {
      return Reject(UNAUTHORIZED, ErrorBody(AUTH_REQUIRED, None));
    }
    if OrEmpty(user.value.role) !in allowedRoles {
      return Reject(FORBIDDEN, ErrorBody(INSUFFICIENT_PERMISSIONS, None));
    }
    req.user := user;
    o := Next;
  }

  /** `requirePermission(resource, action)`. */
  method RequirePermission(resource: string, action: string, hasPermission: PermissionCheck,
                           req: Request, verify: Verifier) returns (o: Outcome)
    modifies req`user
    ensures o == Decide(PermissionGuard(resource, action, hasPermission), GetUserFromRequest(req, verify))
    ensures req.user == if o.Next? then GetUserFromRequest(req, verify) else old(req.user)
  {
    var user := GetUserFromRequest(req, verify);
    if user.None? {
      return Reject(UNAUTHORIZED, ErrorBody(AUTH_REQUIRED, None));
    }
    if !hasPermission(user.value.role, resource, action) {
      return Reject(FORBIDDEN, ErrorBody(INSUFFICIENT_FOR_ACTION, None));
    }
    req.user := user;
    o := Next;
  }

  /** `attachUser`: never responds, attaches an identity only when one resolves. */
  method AttachUser(req: Request, verify: Verifier) returns (o: Outcome)
    modifies req`user
    ensures o == Next && o == Decide(AttachGuard, GetUserFromRequest(req, verify))
    ensures req.user == if GetUserFromRequest(req, verify).Some? then GetUserFromRequest(req, verify) else old(req.user)
  {
    var user := GetUserFromRequest(req, verify);
    if user.Some? {
      req.user := user;
    }
    o := Next;
  }

  // ---------------------------------------------------------------------------
  // Inactivity guard

  /** What `checkInactivityTimeout` does to a session that has a user. */
  datatype InactivityAction = Skip | Refresh | Expire

  /** The decision for a session with a truthy `userId`, given its role, its previous
      `lastActivity` and the current time in milliseconds. */
  function InactivityDecision(role: Option<string>, lastActivity: Option<int>, now: int): (a: InactivityAction)
    ensures a == Skip <==> role == Some(ADMIN_ROLE)
    ensures a == Expire ==>
      lastActivity.Some? && lastActivity.value != 0 && now > lastActivity.value + INACTIVITY_TIMEOUT
    ensures a == Refresh ==> !TruthyNumber(lastActivity) || now <= lastActivity.value + INACTIVITY_TIMEOUT
  {
    if role != Some(ADMIN_ROLE) then
      if TruthyNumber(lastActivity) && now - lastActivity.value > INACTIVITY_TIMEOUT then Expire
      else Refresh
    else Skip
  }

  /** Exactly thirty minutes of inactivity is not a timeout; one millisecond more is. */
  lemma TimeoutBoundary(role: Option<string>, last: int)
    requires role != Some(ADMIN_ROLE) && last != 0
    ensures InactivityDecision(role, Some(last), last + INACTIVITY_TIMEOUT) == Refresh
    ensures InactivityDecision(role, Some(last), last + INACTIVITY_TIMEOUT + 1) == Expire
  {
  }

  /** A missing or zero `lastActivity` never times out; an Admin session never times out. */
  lemma NeverExpires(role: Option<string>, last: Option<int>, now: int)
    requires role == Some(ADMIN_ROLE) || !TruthyNumber(last)
    ensures InactivityDecision(role, last, now) != Expire
  {
  }

  /** Once expired, a session stays expired at every later time. */
  lemma ExpiryIsMonotone(role: Option<string>, last: Option<int>, now: int, later: int)
    requires InactivityDecision(role, last, now) == Expire && now <= later
    ensures InactivityDecision(role, last, later) == Expire
  {
  }

  /** After a refresh at `now`, a later request within the window is refreshed again,
      unless `now` was 0, which is falsy and disables the check. */
  lemma RefreshKeepsSessionAlive(role: Option<string>, now: int, later: int)
    requires role != Some(ADMIN_ROLE)
    ensures InactivityDecision(role, Some(now), later) == Expire <==> now != 0 && later - now > INACTIVITY_TIMEOUT
  {
  }

  /** An Editor idle 31 minutes is expired, one idle 10 minutes is refreshed, an Admin is skipped. */
  lemma InactivityExamples(now: int)
    requires now > 31 * 60 * 1000
    ensures InactivityDecision(Some("Editor"), Some(now - 31 * 60 * 1000), now) == Expire
    ensures InactivityDecision(Some("Editor"), Some(now - 10 * 60 * 1000), now) == Refresh
    ensures InactivityDecision(Some(ADMIN_ROLE), Some(now - 31 * 60 * 1000), now) == Skip
  {
  }

  /** The response sent when a session expires. */
  const EXPIRED_RESPONSE: Outcome := Reject(UNAUTHORIZED, ErrorBody(SESSION_EXPIRED, Some(INACTIVITY_CODE)))

  /** `checkInactivityTimeout`, with `Date.now()` passed in as `now`. */
  method CheckInactivityTimeout(req: Request, now: int) returns (o: Outcome)
    modifies req.session
    ensures req.session == null ==> o == Next
    ensures req.session != null ==>
      var s := req.session;
      var a := if s.userId == "" then Skip else InactivityDecision(s.userRole, old(s.lastActivity), now);
      && o == (if a == Expire then EXPIRED_RESPONSE else Next)
      && s.destroyed == (old(s.destroyed) || a == Expire)
      && s.lastActivity == (if a == Refresh then Some(now) else old(s.lastActivity))
  {
    var session := req.session;
    if session != null && session.userId != "" {
      var userRole := session.userRole;
      if userRole != Some(ADMIN_ROLE) {
        if TruthyNumber(session.lastActivity) {
          var inactiveTime := now - session.lastActivity.value;
          if inactiveTime > INACTIVITY_TIMEOUT {
            session.destroyed := true;
            return EXPIRED_RESPONSE;
          }
        }
        session.lastActivity := Some(now);
      }
    }
    o := Next;
  }
}
