/** Refresh tokens: the service and repository methods. */
module AuthService {
  import opened Wrappers
  import opened Rows
  import opened Tables
  import opened Database
  import Auth

  method IssueTokenPair(session: Session, id: TokenId, user: UserId, tenant: Option<TenantId>, expiresAt: nat,
                        family: TokenId) returns (error: Option<AppError>)
    modifies session`tokens
    ensures Agrees(error, Auth.Issue(old(session.Auth()), id, user, tenant, expiresAt, family), session.Auth())
  {
    if id in session.tokens {
      return Some(IntegrityError);
    }
    session.tokens := session.tokens[id := RefreshToken(user, tenant, expiresAt, None, family)];
    return None;
  }

  method Revoke(session: Session, id: TokenId, now: nat)
    requires id in session.tokens
    modifies session`tokens
    ensures session.Auth() == Auth.Revoke(old(session.Auth()), id, now)
  {
    session.tokens := session.tokens[id := session.tokens[id].(revokedAt := Some(now))];
  }

  /** Rotation: revoke first, then issue. */
  method Refresh(session: Session, id: TokenId, next: TokenId, userIsActive: bool, expiresAt: nat, now: nat)
    returns (error: Option<AppError>)
    modifies session`tokens
    ensures Agrees(error, Auth.Refresh(old(session.Auth()), id, next, userIsActive, expiresAt, now), session.Auth())
  {
    if id !in session.tokens || session.tokens[id].revokedAt.Some? || session.tokens[id].expiresAt < now {
      return Some(RefreshTokenInvalid);
    }
    if !userIsActive {
      return Some(RefreshTokenInvalid);
    }
    var stored := session.tokens[id];
    Revoke(session, id, now);
    error := IssueTokenPair(session, next, stored.user, stored.tenant, expiresAt, stored.family);
  }

  method SwitchOrganization(session: Session, user: UserId, tenant: TenantId, token: TokenId, expiresAt: nat)
    returns (error: Option<AppError>)
    modifies session`tokens
    ensures if Seat(tenant, user) !in session.members then error == Some(NotOrganizationMember)
            else Agrees(error, Auth.Issue(old(session.Auth()), token, user, Some(tenant), expiresAt, token),
                        session.Auth())
  {
    if Seat(tenant, user) !in session.members {
      return Some(NotOrganizationMember);
    }
    error := IssueTokenPair(session, token, user, Some(tenant), expiresAt, token);
  }

  /** One bulk UPDATE statement. */
  method RevokeTenantRefreshTokens(session: Session, tenant: TenantId, now: nat)
    modifies session`tokens
    ensures session.Auth() == Auth.RevokeAllForTenant(old(session.Auth()), tenant, now)
  {
    session.tokens := map id | id in session.tokens ::
      if session.tokens[id].tenant == Some(tenant) && session.tokens[id].revokedAt.None?
      then session.tokens[id].(revokedAt := Some(now)) else session.tokens[id];
  }
}
