/** Organizations and memberships: the service and repository methods. */
module OrganizationService {
  import opened Wrappers
  import opened Rows
  import opened Tables
  import opened Database
  import Organizations
  import Bots
  import Messaging
  import Auth
  import AuthService
  import BotService
  import MessagingService

  method AssertCanManageMembers(session: Session, tenant: TenantId, actor: UserId) returns (denied: Option<AppError>)
    ensures denied == Organizations.CheckPathPermission(session.Orgs(), actor, tenant, Organizations.ManageMembers)
  {
    if !Organizations.IsActive(session.Orgs(), tenant) {
      return Some(OrganizationNotFound);
    }
    if Seat(tenant, actor) !in session.members {
      return Some(NotOrganizationMember);
    }
    if !Organizations.HasPermission(session.members[Seat(tenant, actor)], Organizations.ManageMembers) {
      return Some(InsufficientPermission);
    }
    return None;
  }

  method InsertMember(session: Session, seat: Seat, role: Role) returns (error: Option<AppError>)
    modifies session`members
    ensures Agrees(error, Organizations.InsertMember(old(session.Orgs()), seat, role), session.Orgs())
  {
    if seat in session.members {
      return Some(IntegrityError);
    }
    session.members := session.members[seat := role];
    return None;
  }

  method CreateOrganization(session: Session, id: TenantId, owner: UserId) returns (error: Option<AppError>)
    modifies session`organizations, session`members
    ensures Agrees(error, Organizations.CreateOrganization(old(session.Orgs()), id, owner), session.Orgs())
  {
    if id in session.organizations {
      return Some(IntegrityError);
    }
    session.organizations := session.organizations[id := Organization(None)];
    error := InsertMember(session, Seat(id, owner), Owner);
  }

  /** `user` is the account the invitation's address belongs to, if any. */
  method AddMember(session: Session, tenant: TenantId, actor: UserId, user: Option<UserId>, role: Role)
    returns (error: Option<AppError>)
    modifies session`members
    ensures Agrees(error, Organizations.AddMember(old(session.Orgs()), tenant, actor, user, role), session.Orgs())
  {
    error := AssertCanManageMembers(session, tenant, actor);
    if error.Some? {
      return;
    }
    if user.None? {
      return Some(MemberUserNotFound);
    }
    if Seat(tenant, user.value) in session.members {
      return Some(AlreadyMember);
    }
    error := InsertMember(session, Seat(tenant, user.value), role);
  }

  /** The owners among the first rows of a listing. */
  ghost function OwnersAmong(o: OrgTables, rows: seq<Seat>): set<Seat> {
    set s | s in rows && s in o.members && o.members[s] == Owner
  }

  lemma OneMoreRow(o: OrgTables, rows: seq<Seat>, i: nat)
    requires Distinct(rows) && i < |rows| && rows[i] in o.members
    ensures |OwnersAmong(o, rows[..i + 1])| == |OwnersAmong(o, rows[..i])| + if o.members[rows[i]] == Owner then 1 else 0
  {
    assert rows[..i + 1] == rows[..i] + [rows[i]] && rows[i] !in rows[..i];
    if o.members[rows[i]] == Owner {
      assert OwnersAmong(o, rows[..i + 1]) == OwnersAmong(o, rows[..i]) + {rows[i]};
    } else {
      assert OwnersAmong(o, rows[..i + 1]) == OwnersAmong(o, rows[..i]);
    }
  }

  method CountOwners(session: Session, tenant: TenantId) returns (count: nat)
    ensures count == |Organizations.OwnersOf(session.Orgs(), tenant)|
  {
    var rows := Select(Organizations.SeatsOf(session.Orgs(), tenant));
    count := 0;
    var i := 0;
    while i < |rows|
      invariant 0 <= i <= |rows|
      invariant count == |OwnersAmong(session.Orgs(), rows[..i])|
    {
      assert rows[i] in rows;
      OneMoreRow(session.Orgs(), rows, i);
      if session.members[rows[i]] == Owner {
        count := count + 1;
      }
      i := i + 1;
    }
    assert rows[..i] == rows;
    assert OwnersAmong(session.Orgs(), rows) == Organizations.OwnersOf(session.Orgs(), tenant);
  }

  method UpdateMemberRole(session: Session, tenant: TenantId, actor: UserId, target: UserId, role: Role)
    returns (error: Option<AppError>)
    modifies session`members
    ensures Agrees(error, Organizations.UpdateMemberRole(old(session.Orgs()), tenant, actor, target, role),
                   session.Orgs())
  {
    error := AssertCanManageMembers(session, tenant, actor);
    if error.Some? {
      return;
    }
    var seat := Seat(tenant, target);
    if seat !in session.members {
      return Some(MembershipNotFound);
    }
    if session.members[seat] == Owner && role != Owner {
      var owners := CountOwners(session, tenant);
      if owners <= 1 {
        return Some(LastOwner);
      }
    }
    session.members := session.members[seat := role];
    return None;
  }

  method ListUserOrganizations(session: Session, page: seq<Seat>) returns (items: seq<TenantId>)
    ensures items == Organizations.ListActive(session.Orgs(), page)
  {
    items := [];
    var i := 0;
    while i < |page|
      invariant 0 <= i <= |page|
      invariant items + Organizations.ListActive(session.Orgs(), page[i..])
                == Organizations.ListActive(session.Orgs(), page)
    {
      assert page[i..][1..] == page[i + 1..];
      if Organizations.IsActive(session.Orgs(), page[i].tenant) {
        items := items + [page[i].tenant];
      }
      i := i + 1;
    }
  }

  /** Memberships are removed row by row, not marked. */
  method DeleteMembers(session: Session, tenant: TenantId)
    modifies session`members
    ensures session.members == old(session.members) - Organizations.SeatsOf(old(session.Orgs()), tenant)
  {
    var rows := Select(Organizations.SeatsOf(session.Orgs(), tenant));
    var i := 0;
    while i < |rows|
      invariant 0 <= i <= |rows|
      invariant forall s :: s in session.members <==> s in old(session.members) && s !in rows[..i]
      invariant forall s | s in session.members :: session.members[s] == old(session.members)[s]
    {
      session.members := session.members - {rows[i]};
      i := i + 1;
    }
    assert rows[..i] == rows;
  }

  method DeleteOrganization(session: Session, tenant: TenantId, actor: UserId, now: nat)
    returns (error: Option<AppError>)
    modifies session`organizations, session`members, session`bots, session`assignments, session`messages, session`tokens
    ensures error == Organizations.CheckPathPermission(old(session.Orgs()), actor, tenant, Organizations.OrganizationDelete)
    ensures error.Some? ==> session.Current() == old(session.Current())
    ensures error.None? ==>
              && tenant in old(session.organizations)
              && session.Orgs() == Organizations.Dissolved(old(session.Orgs()), tenant, now)
              && session.Bots() == Bots.Retired(old(session.Bots()), tenant, now)
              && session.Msgs() == Messaging.CancelPending(old(session.Msgs()), tenant, now)
              && session.Auth() == Auth.RevokeAllForTenant(old(session.Auth()), tenant, now)
  {
    if !Organizations.IsActive(session.Orgs(), tenant) {
      return Some(OrganizationNotFound);
    }
    if Seat(tenant, actor) !in session.members {
      return Some(NotOrganizationMember);
    }
    if !Organizations.HasPermission(session.members[Seat(tenant, actor)], Organizations.OrganizationDelete) {
      return Some(InsufficientPermission);
    }
    BotService.CascadeDeleteForOrganization(session, tenant, now);
    MessagingService.CascadeDeletePendingMessages(session, tenant, now);
    AuthService.RevokeTenantRefreshTokens(session, tenant, now);
    DeleteMembers(session, tenant);
    session.organizations := session.organizations[tenant := Organization(Some(now))];
    return None;
  }
}
