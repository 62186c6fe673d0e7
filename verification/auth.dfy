/**
 * Principal resolution (apps/api/src/middleware/optionalAuth.ts): reads an
 * `Authorization: Bearer <token>` header (section 2.1 of RFC 6750), asks
 * the token verifier for its claims and builds the request's principal, or
 * leaves the request anonymous.
 *
 * Signature checking (RFC 7519) is not modelled: `verify` is an opaque
 * partial oracle that either yields the token's claims or fails.
 */
module OptionalAuth {
  import opened Wrappers
  import Tiers

  /** The claims the access token carries; any of them may be missing. */
  datatype Payload = Payload(
    sub: Option<string>, email: Option<string>, globalRole: Option<string>,
    planTier: Option<string>, tenantId: Option<string>)

  /** `req.user`. */
  datatype Principal = Principal(
    id: Option<string>, email: Option<string>, globalRole: Option<string>,
    planTier: string, tenantId: Option<string>)

  const BEARER := "Bearer "

  /** The token of a header that starts with the case-sensitive "Bearer " prefix. */
  function BearerToken(header: Option<string>): (token: Option<string>)
    ensures token.Some? <==> header.Some? && BEARER <= header.value
    ensures token.Some? ==> header.value == BEARER + token.value
  {
    if header.Some? && BEARER <= header.value then
      assert header.value == BEARER + header.value[|BEARER|..];
      Some(header.value[|BEARER|..])
    else None
  }

  /** The principal built from verified claims, with the tier and tenant defaults. */
  function PrincipalOf(p: Payload): (u: Principal)
    ensures u.id == p.sub && u.email == p.email && u.globalRole == p.globalRole
    ensures u.planTier == (if Truthy(p.planTier) then p.planTier.value else Tiers.INVITED)
    ensures u.tenantId == (if Truthy(p.tenantId) then p.tenantId else None)
    ensures u.planTier != ""
  {
    Principal(p.sub, p.email, p.globalRole, OrElse(p.planTier, Tiers.INVITED), OrNull(p.tenantId))
  }

  /** The routes' `req.user?.planTier || "INVITED"`: a guest is read as INVITED. */
  function UserTier(user: Option<Principal>): (tier: string)
    ensures user.None? ==> tier == Tiers.INVITED
    ensures user.Some? ==> tier == user.value.planTier || (user.value.planTier == "" && tier == Tiers.INVITED)
  {
    if user.Some? && user.value.planTier != "" then user.value.planTier else Tiers.INVITED
  }

  /**
   * `optionalAuth`: the value it leaves in `req.user` before it calls `next`.
   * The middleware always continues exactly once and never answers with an
   * error, so the only outcome is this optional principal.
   */
  function Authenticate(header: Option<string>, verify: string -> Option<Payload>): (user: Option<Principal>)
    ensures user.Some? <==> BearerToken(header).Some? && verify(BearerToken(header).value).Some?
    ensures user.Some? ==> user.value == PrincipalOf(verify(BearerToken(header).value).value) && user.value.planTier != ""
  {
    match BearerToken(header)
    case None => None
    case Some(token) =>
      match verify(token)
      case None => None
      case Some(p) => Some(PrincipalOf(p))
  }

  /** A request gets a principal exactly when it carries a Bearer token the verifier accepts. */
  lemma AuthenticateSpec(header: Option<string>, verify: string -> Option<Payload>)
    ensures Authenticate(header, verify).Some? <==>
      header.Some? && BEARER <= header.value && verify(header.value[|BEARER|..]).Some?
    ensures Authenticate(header, verify).Some? ==>
      Authenticate(header, verify) == Some(PrincipalOf(verify(header.value[7..]).value))
  {
  }

  /** A missing header, a lower-case scheme or a bare token leave the request anonymous whatever the verifier says. */
  lemma NoBearerIsAnonymous(raw: string, verify: string -> Option<Payload>)
    ensures Authenticate(None, verify) == None
    ensures Authenticate(Some("bearer " + raw), verify) == None
    ensures !(BEARER <= raw) ==> Authenticate(Some(raw), verify) == None
  {
    assert !(BEARER <= "bearer " + raw) by {
      assert ("bearer " + raw)[0] == 'b';
    }
  }

  /** A token the verifier rejects degrades to a guest; the header's own prefix is not part of the token. */
  lemma RejectedTokenIsAnonymous(token: string, verify: string -> Option<Payload>)
    requires verify(token).None?
    ensures Authenticate(Some(BEARER + token), verify) == None
  {
    assert BearerToken(Some(BEARER + token)) == Some(token);
  }
}

/**
 * The analyst guard (apps/api/src/middleware/requireAnalyst.ts): three
 * checks in order, each with its own status.
 */
module AnalystGuard {
  import opened Wrappers
  import opened OptionalAuth

  datatype AnalystFailure = Unauthorized | ForbiddenAnalystOnly | AnalystWithoutTenant {
    function Status(): nat {
      match this
      case Unauthorized => 401
      case ForbiddenAnalystOnly => 403
      case AnalystWithoutTenant => 400
    }
  }

  /** `Pass` stands for the call to `next`. */
  datatype Guard = Pass | Reject(failure: AnalystFailure)

  predicate IsAnalyst(u: Principal) {
    u.globalRole == Some("ANALYST")
  }

  function RequireAnalyst(user: Option<Principal>): (g: Guard)
    ensures g == Pass <==> user.Some? && IsAnalyst(user.value) && Truthy(user.value.tenantId)
    ensures user.None? ==> g == Reject(Unauthorized)
    ensures user.Some? && !IsAnalyst(user.value) ==> g == Reject(ForbiddenAnalystOnly)
    ensures user.Some? && IsAnalyst(user.value) && !Truthy(user.value.tenantId) ==> g == Reject(AnalystWithoutTenant)
  {
    if user.None? then Reject(Unauthorized)
    else if !IsAnalyst(user.value) then Reject(ForbiddenAnalystOnly)
    else if !Truthy(user.value.tenantId) then Reject(AnalystWithoutTenant)
    else Pass
  }

  /** A principal that passes names a tenant, and the failures are checked in order. */
  lemma RequireAnalystOrder(u: Principal)
    ensures RequireAnalyst(Some(u)) != Reject(Unauthorized)
    ensures u.globalRole != Some("ANALYST") ==> RequireAnalyst(Some(u)) == Reject(ForbiddenAnalystOnly)
    ensures RequireAnalyst(Some(u)) == Pass ==> u.tenantId.Some? && u.tenantId.value != ""
  {
  }
}
