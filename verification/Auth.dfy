/** Refresh tokens: issuing, rotation and bulk revocation. */
module Auth {
  import opened Wrappers
  import opened Rows
  import opened Tables

  /** `issue_token_pair`; the fingerprint column is unique. */
  function Issue(a: AuthTables, id: TokenId, user: UserId, tenant: Option<TenantId>, expiresAt: nat, family: TokenId):
    Result<AuthTables, AppError>
  {
    if id in a.tokens then Err(IntegrityError)
    else Ok(a.(tokens := a.tokens[id := RefreshToken(user, tenant, expiresAt, None, family)]))
  }

  /** The lookup of `refresh`: stored, not revoked, not expired. */
  predicate IsUsable(a: AuthTables, id: TokenId, now: nat) {
    id in a.tokens && a.tokens[id].revokedAt.None? && !(a.tokens[id].expiresAt < now)
  }

  function Revoke(a: AuthTables, id: TokenId, now: nat): AuthTables
    requires id in a.tokens
  {
    a.(tokens := a.tokens[id := a.tokens[id].(revokedAt := Some(now))])
  }

  /** Rotation: the presented token is revoked and a new one of the same user, tenant and family issued. */
  function Refresh(a: AuthTables, id: TokenId, next: TokenId, userIsActive: bool, expiresAt: nat, now: nat):
    Result<AuthTables, AppError>
  {
    if !IsUsable(a, id, now) || !userIsActive then Err(RefreshTokenInvalid)
    else
      var t := a.tokens[id];
      Issue(Revoke(a, id, now), next, t.user, t.tenant, expiresAt, t.family)
  }

  function TokenRevoked(t: RefreshToken, tenant: TenantId, now: nat): RefreshToken {
    if t.tenant == Some(tenant) && t.revokedAt.None? then t.(revokedAt := Some(now)) else t
  }

  function RevokeAllForTenant(a: AuthTables, tenant: TenantId, now: nat): AuthTables {
    a.(tokens := map id | id in a.tokens :: TokenRevoked(a.tokens[id], tenant, now))
  }

  // ----- What every step keeps -----

  /** A token descends from the one its family is named after, with the same user and tenant. */
  ghost predicate Descends(a: AuthTables, id: TokenId)
    requires id in a.tokens
  {
    var root := a.tokens[id].family;
    && root in a.tokens && a.tokens[root].family == root
    && a.tokens[root].user == a.tokens[id].user && a.tokens[root].tenant == a.tokens[id].tenant
  }

  /** User and tenant are constant along a family, and at most one of its tokens is not revoked. */
  ghost predicate Sound(a: AuthTables) {
    && (forall id {:trigger Descends(a, id)} | id in a.tokens :: Descends(a, id))
    && OneUnrevoked(a)
  }

  ghost predicate OneUnrevoked(a: AuthTables) {
    forall i, j | i in a.tokens && j in a.tokens && i != j
                  && a.tokens[i].revokedAt.None? && a.tokens[j].revokedAt.None? ::
      a.tokens[i].family != a.tokens[j].family
  }

  /** Tokens stay, keep user, tenant and family, and a revoked one stays revoked. */
  ghost predicate Grows(a: AuthTables, a': AuthTables) {
    forall id | id in a.tokens ::
      && id in a'.tokens
      && a'.tokens[id].user == a.tokens[id].user && a'.tokens[id].tenant == a.tokens[id].tenant
      && a'.tokens[id].family == a.tokens[id].family
      && (a.tokens[id].revokedAt.Some? ==> a'.tokens[id].revokedAt == a.tokens[id].revokedAt)
  }

  lemma DescentStays(a: AuthTables, a': AuthTables, id: TokenId)
    requires Sound(a) && Grows(a, a') && id in a.tokens
    ensures Descends(a', id)
  {
    assert Descends(a, id);
  }

  lemma IssueKeepsSound(a: AuthTables, id: TokenId, user: UserId, tenant: Option<TenantId>, expiresAt: nat)
    requires Sound(a)
    ensures var r := Issue(a, id, user, tenant, expiresAt, id); r.Ok? ==> Sound(r.value) && Grows(a, r.value)
  {
    if id !in a.tokens {
      var a' := Issue(a, id, user, tenant, expiresAt, id).value;
      forall i | i in a'.tokens
        ensures Descends(a', i)
        ensures i != id ==> a'.tokens[i].family != id
      {
        if i != id {
          DescentStays(a, a', i);
          assert Descends(a, i);
        }
      }
    }
  }

  lemma RefreshKeepsOne(a: AuthTables, id: TokenId, next: TokenId, userIsActive: bool, expiresAt: nat, now: nat)
    requires OneUnrevoked(a)
    ensures var r := Refresh(a, id, next, userIsActive, expiresAt, now); r.Ok? ==> OneUnrevoked(r.value)
  {
  }

  lemma RefreshKeepsSound(a: AuthTables, id: TokenId, next: TokenId, userIsActive: bool, expiresAt: nat, now: nat)
    requires Sound(a)
    ensures var r := Refresh(a, id, next, userIsActive, expiresAt, now);
            r.Ok? ==> Sound(r.value) && Grows(a, r.value) && !IsUsable(r.value, id, now)
  {
    var r := Refresh(a, id, next, userIsActive, expiresAt, now);
    if r.Ok? {
      RefreshKeepsOne(a, id, next, userIsActive, expiresAt, now);
      hide OneUnrevoked;
      forall i | i in r.value.tokens
        ensures Descends(r.value, i)
      {
        DescentStays(a, r.value, if i == next then id else i);
      }
    }
  }

  lemma RevokeAllKeepsSound(a: AuthTables, tenant: TenantId, now: nat)
    requires Sound(a)
    ensures Sound(RevokeAllForTenant(a, tenant, now)) && Grows(a, RevokeAllForTenant(a, tenant, now))
  {
    var a' := RevokeAllForTenant(a, tenant, now);
    forall i | i in a'.tokens
      ensures Descends(a', i)
    {
      DescentStays(a, a', i);
    }
  }
}
