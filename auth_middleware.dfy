/** The request gates of server/src/middlewares/authMiddleware.ts. Token
    verification is an oracle: `verify(token)` is the decoded payload, or
    `None` where `verifyToken` throws. */
module AuthMiddleware {
  import opened Wrappers
  import UserModel
  import Jwt

  const BearerPrefix: string := "Bearer "

  /** The token of an `Authorization` header that starts with "Bearer ": the
      header without its first 7 characters. */
  function BearerToken(header: Option<string>): (t: Option<string>)
    ensures t.Some? <==> header.Some? && |header.value| >= 7 && header.value[..7] == BearerPrefix
    ensures t.Some? ==> header.value == BearerPrefix + t.value && t.value == header.value[7..]
  {
    if header.Some? && |header.value| >= 7 && header.value[..7] == BearerPrefix then
      assert header.value == header.value[..7] + header.value[7..];
      Some(header.value[7..])
    else None
  }

  /** How a gate ends: `next()` is called, or a reply is sent and `next` is not. */
  datatype Outcome = Continue | Deny(status: int, message: string)

  /** The payload of a token whose user still exists and is active; `None` when
      verification fails, the id cannot be cast, or the user is gone or inactive. */
  function ActiveUser(token: string, verify: string -> Option<Jwt.TokenPayload>,
                      users: map<nat, UserModel.User>): (p: Option<Jwt.TokenPayload>)
    ensures p.Some? <==> verify(token).Some? && Jwt.ParseId(verify(token).value.userId).Some?
                         && Jwt.ParseId(verify(token).value.userId).value in users
                         && users[Jwt.ParseId(verify(token).value.userId).value].isActive
    ensures p.Some? ==> p == verify(token)
  {
    var decoded := verify(token);
    if decoded.None? then None
    else
      var id := Jwt.ParseId(decoded.value.userId);
      if id.None? || id.value !in users || !users[id.value].isActive then None
      else decoded
  }

  /** `authenticate`: the reply it sends or the payload it attaches. A thrown
      verification or cast error is caught and answered the same way. */
  function Authenticate(header: Option<string>, verify: string -> Option<Jwt.TokenPayload>,
                        users: map<nat, UserModel.User>): (r: (Outcome, Option<Jwt.TokenPayload>))
    ensures BearerToken(header).None? ==> r.0 == Deny(401, "Access token required")
    ensures BearerToken(header).Some? && verify(BearerToken(header).value).None? ==>
              r.0 == Deny(401, "Invalid or expired token")
    ensures r.0 == Continue <==> BearerToken(header).Some? && ActiveUser(BearerToken(header).value, verify, users).Some?
    ensures r.0 == Continue ==> r.1 == verify(BearerToken(header).value) && r.1.Some?
    ensures r.0 != Continue ==> r.1.None? && r.0.status == 401
  {
    var token := BearerToken(header);
    if token.None? then (Deny(401, "Access token required"), None)
    else
      var decoded := verify(token.value);
      if decoded.None? then (Deny(401, "Invalid or expired token"), None)
      else
        var id := Jwt.ParseId(decoded.value.userId);
        if id.None? then (Deny(401, "Invalid or expired token"), None)
        else if id.value !in users || !users[id.value].isActive then (Deny(401, "User not found or inactive"), None)
        else (Continue, decoded)
  }

  /** `optionalAuth`: the payload it attaches, if any; it always continues. */
  function OptionalAuth(header: Option<string>, verify: string -> Option<Jwt.TokenPayload>,
                        users: map<nat, UserModel.User>): (p: Option<Jwt.TokenPayload>)
    ensures BearerToken(header).None? ==> p.None?
    ensures BearerToken(header).Some? ==> p == ActiveUser(BearerToken(header).value, verify, users)
  {
    var token := BearerToken(header);
    if token.None? then None else ActiveUser(token.value, verify, users)
  }

  /** `optionalAuth` attaches a user exactly when `authenticate` would let the
      request through, and the same payload. */
  lemma OptionalMatchesAuthenticate(header: Option<string>, verify: string -> Option<Jwt.TokenPayload>,
                                    users: map<nat, UserModel.User>)
    ensures OptionalAuth(header, verify, users).Some? <==> Authenticate(header, verify, users).0 == Continue
    ensures OptionalAuth(header, verify, users) == Authenticate(header, verify, users).1
  {
  }

  /** A token whose payload names a stored active user by its id, as `register`
      and `login` issue them, passes `authenticate`. */
  lemma {:induction false} IssuedTokenAuthenticates(token: string, verify: string -> Option<Jwt.TokenPayload>,
                                                    users: map<nat, UserModel.User>, id: nat)
    requires id in users && users[id].isActive
    requires verify(token).Some? && verify(token).value.userId == Jwt.IdText(id)
    ensures Authenticate(Some(BearerPrefix + token), verify, users) == (Continue, verify(token))
  {
    Jwt.ParseIdText(id);
    assert (BearerPrefix + token)[..7] == BearerPrefix;
    assert (BearerPrefix + token)[7..] == token;
  }

  /** `requireRole(roles)`. */
  function RequireRole(roles: seq<string>, user: Option<Jwt.TokenPayload>): (o: Outcome)
    ensures user.None? ==> o == Deny(401, "Authentication required")
    ensures user.Some? && user.value.role !in roles ==> o == Deny(403, "Insufficient permissions")
    ensures o == Continue <==> user.Some? && user.value.role in roles
  {
    if user.None? then Deny(401, "Authentication required")
    else if user.value.role !in roles then Deny(403, "Insufficient permissions")
    else Continue
  }

  /** `requireAdmin`: only admins pass. */
  function RequireAdmin(user: Option<Jwt.TokenPayload>): (o: Outcome)
    ensures o == Continue <==> user.Some? && user.value.role == "admin"
    ensures o == RequireRole(["admin"], user)
  {
    RequireRole(["admin"], user)
  }

  /** `requireModerator`: admins and moderators pass. */
  function RequireModerator(user: Option<Jwt.TokenPayload>): (o: Outcome)
    ensures o == Continue <==> user.Some? && (user.value.role == "admin" || user.value.role == "moderator")
    ensures o == RequireRole(["admin", "moderator"], user)
  {
    RequireRole(["admin", "moderator"], user)
  }

  /** Whoever passes `requireAdmin` passes `requireModerator`. */
  lemma AdminIsModerator(user: Option<Jwt.TokenPayload>)
    ensures RequireAdmin(user) == Continue ==> RequireModerator(user) == Continue
  {
  }

  /** The request as the gates see it: the attached user, how many times `next`
      was called and the reply sent, if any. */
  class Request {
    var user: Option<Jwt.TokenPayload>
    var nextCalls: nat
    var reply: Option<(int, string)>

    constructor (user: Option<Jwt.TokenPayload>)
      ensures this.user == user && nextCalls == 0 && reply.None?
    {
      this.user := user;
      nextCalls := 0;
      reply := None;
    }

    /** Run `authenticate` on this request. */
    method RunAuthenticate(header: Option<string>, verify: string -> Option<Jwt.TokenPayload>,
                           users: map<nat, UserModel.User>)
      modifies this
      ensures var (o, p) := Authenticate(header, verify, users);
              if o == Continue then
                user == p && nextCalls == old(nextCalls) + 1 && reply == old(reply)
              else
                user == old(user) && nextCalls == old(nextCalls) && reply == Some((o.status, o.message))
    {
      var (o, p) := Authenticate(header, verify, users);
      if o.Deny? {
        reply := Some((o.status, o.message));
        return;
      }
      user := p;
      nextCalls := nextCalls + 1;
    }

    /** Run `optionalAuth` on this request: `next` is called exactly once. */
    method RunOptionalAuth(header: Option<string>, verify: string -> Option<Jwt.TokenPayload>,
                           users: map<nat, UserModel.User>)
      modifies this
      ensures nextCalls == old(nextCalls) + 1 && reply == old(reply)
      ensures user == (if OptionalAuth(header, verify, users).Some? then OptionalAuth(header, verify, users) else old(user))
    {
      var p := OptionalAuth(header, verify, users);
      if p.Some? {
        user := p;
      }
      nextCalls := nextCalls + 1;
    }

    /** Run `requireRole(roles)` on this request. */
    method RunRequireRole(roles: seq<string>)
      modifies this
      ensures user == old(user)
      ensures RequireRole(roles, old(user)) == Continue ==> nextCalls == old(nextCalls) + 1 && reply == old(reply)
      ensures RequireRole(roles, old(user)) != Continue ==>
                nextCalls == old(nextCalls) && reply == Some((RequireRole(roles, old(user)).status, RequireRole(roles, old(user)).message))
    {
      var o := RequireRole(roles, user);
      if o.Deny? {
        reply := Some((o.status, o.message));
        return;
      }
      nextCalls := nextCalls + 1;
    }
  }
}
