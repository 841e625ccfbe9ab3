/** Organizations, memberships and role permissions. */
module Organizations {
  import opened Wrappers
  import opened Rows
  import opened Tables

  datatype Permission =
    | BillingManage | BotManage | BotView | DestinationManage | DestinationView
    | MessageSend | LogView | ManageMembers | OrganizationDelete

  function RolePermissions(role: Role): set<Permission> {
    match role
    case Owner => {BillingManage, BotManage, BotView, DestinationManage, DestinationView,
                   MessageSend, LogView, ManageMembers, OrganizationDelete}
    case Admin => {BotManage, BotView, DestinationManage, DestinationView, MessageSend, LogView, ManageMembers}
    case Member => {BotView, DestinationView, MessageSend, LogView}
  }

  predicate HasPermission(role: Role, p: Permission) {
    p in RolePermissions(role)
  }

  predicate IsActive(o: OrgTables, tenant: TenantId) {
    tenant in o.organizations && IsLive(o.organizations[tenant].deletedAt)
  }

  /** The guard of every tenant-scoped endpoint: membership, then active organization, then role. */
  function CheckPermission(o: OrgTables, user: UserId, tenant: TenantId, p: Permission): Option<AppError> {
    if Seat(tenant, user) !in o.members then Some(NotOrganizationMember)
    else if !IsActive(o, tenant) then Some(OrganizationNotFound)
    else if !HasPermission(o.members[Seat(tenant, user)], p) then Some(InsufficientPermission)
    else None
  }

  /** The guard of the endpoints that name the organization in their path: organization first. */
  function CheckPathPermission(o: OrgTables, actor: UserId, tenant: TenantId, p: Permission): Option<AppError> {
    if !IsActive(o, tenant) then Some(OrganizationNotFound)
    else if Seat(tenant, actor) !in o.members then Some(NotOrganizationMember)
    else if !HasPermission(o.members[Seat(tenant, actor)], p) then Some(InsufficientPermission)
    else None
  }

  function InsertMember(o: OrgTables, seat: Seat, role: Role): Result<OrgTables, AppError> {
    if seat in o.members then Err(IntegrityError)
    else Ok(o.(members := o.members[seat := role]))
  }

  function CreateOrganization(o: OrgTables, id: TenantId, owner: UserId): Result<OrgTables, AppError> {
    if id in o.organizations then Err(IntegrityError)
    else InsertMember(o.(organizations := o.organizations[id := Organization(None)]), Seat(id, owner), Owner)
  }

  function AddMember(o: OrgTables, tenant: TenantId, actor: UserId, user: Option<UserId>, role: Role):
    Result<OrgTables, AppError>
  {
    var denied := CheckPathPermission(o, actor, tenant, ManageMembers);
    if denied.Some? then Err(denied.value)
    else if user.None? then Err(MemberUserNotFound)
    else if Seat(tenant, user.value) in o.members then Err(AlreadyMember)
    else InsertMember(o, Seat(tenant, user.value), role)
  }

  function SeatsOf(o: OrgTables, tenant: TenantId): set<Seat> {
    set s | s in o.members && s.tenant == tenant
  }

  function OwnersOf(o: OrgTables, tenant: TenantId): set<Seat> {
    set s | s in o.members && s.tenant == tenant && o.members[s] == Owner
  }

  function UpdateMemberRole(o: OrgTables, tenant: TenantId, actor: UserId, target: UserId, role: Role):
    Result<OrgTables, AppError>
  {
    var denied := CheckPathPermission(o, actor, tenant, ManageMembers);
    var seat := Seat(tenant, target);
    if denied.Some? then Err(denied.value)
    else if seat !in o.members then Err(MembershipNotFound)
    else if o.members[seat] == Owner && role != Owner && |OwnersOf(o, tenant)| <= 1 then Err(LastOwner)
    else Ok(o.(members := o.members[seat := role]))
  }

  /** The organization part of the delete: every membership row goes, the organization row is marked. */
  function Dissolved(o: OrgTables, tenant: TenantId, now: nat): OrgTables
    requires tenant in o.organizations
  {
    OrgTables(o.organizations[tenant := Organization(Some(now))], o.members - SeatsOf(o, tenant))
  }

  // ----- What every step keeps -----

  /** An active organization has an owner; a membership row belongs to an active organization. */
  ghost predicate Staffed(o: OrgTables) {
    && (forall t | IsActive(o, t) :: OwnersOf(o, t) != {})
    && (forall s | s in o.members :: IsActive(o, s.tenant))
  }

  lemma CreateKeepsStaffed(o: OrgTables, id: TenantId, owner: UserId)
    requires Staffed(o) && CreateOrganization(o, id, owner).Ok?
    ensures Staffed(CreateOrganization(o, id, owner).value)
  {
    var o' := CreateOrganization(o, id, owner).value;
    forall t | IsActive(o', t)
      ensures OwnersOf(o', t) != {}
    {
      if t == id {
        assert Seat(id, owner) in OwnersOf(o', t);
      } else {
        assert IsActive(o, t);
        var s :| s in OwnersOf(o, t);
        assert s in OwnersOf(o', t);
      }
    }
  }

  lemma AddKeepsStaffed(o: OrgTables, tenant: TenantId, actor: UserId, user: Option<UserId>, role: Role)
    requires Staffed(o) && AddMember(o, tenant, actor, user, role).Ok?
    ensures Staffed(AddMember(o, tenant, actor, user, role).value)
  {
    var o' := AddMember(o, tenant, actor, user, role).value;
    forall t | IsActive(o', t)
      ensures OwnersOf(o', t) != {}
    {
      assert IsActive(o, t);
      var s :| s in OwnersOf(o, t);
      assert s in OwnersOf(o', t);
    }
  }

  /** Demoting an owner leaves another one: the last-owner check counts at least two. */
  lemma UpdateKeepsStaffed(o: OrgTables, tenant: TenantId, actor: UserId, target: UserId, role: Role)
    requires Staffed(o) && UpdateMemberRole(o, tenant, actor, target, role).Ok?
    ensures Staffed(UpdateMemberRole(o, tenant, actor, target, role).value)
  {
    var o' := UpdateMemberRole(o, tenant, actor, target, role).value;
    var seat := Seat(tenant, target);
    forall t | IsActive(o', t)
      ensures OwnersOf(o', t) != {}
    {
      assert IsActive(o, t);
      if t == tenant && o.members[seat] == Owner && role != Owner {
        var others := OwnersOf(o, t) - {seat};
        assert |others| == |OwnersOf(o, t)| - 1;
        var s :| s in others;
        assert s in OwnersOf(o', t);
      } else {
        var s :| s in OwnersOf(o, t);
        assert s in OwnersOf(o', t);
      }
    }
  }

  lemma DissolveKeepsStaffed(o: OrgTables, tenant: TenantId, now: nat)
    requires Staffed(o) && tenant in o.organizations
    ensures Staffed(Dissolved(o, tenant, now)) && SeatsOf(Dissolved(o, tenant, now), tenant) == {}
  {
    var o' := Dissolved(o, tenant, now);
    forall t | IsActive(o', t)
      ensures OwnersOf(o', t) != {}
    {
      assert IsActive(o, t);
      var s :| s in OwnersOf(o, t);
      assert s in OwnersOf(o', t);
    }
  }

  /** With memberships only in active organizations, the two guards refuse the same requests, and the
      "organization is active" test after a membership test never fails. */
  lemma GuardsAgree(o: OrgTables, user: UserId, tenant: TenantId, p: Permission)
    requires Staffed(o)
    ensures CheckPermission(o, user, tenant, p) != Some(OrganizationNotFound)
    ensures CheckPermission(o, user, tenant, p).None? <==> CheckPathPermission(o, user, tenant, p).None?
  {
  }

  /** `list_user_organizations`: the active organizations of one page of memberships, in order. */
  function ListActive(o: OrgTables, page: seq<Seat>): seq<TenantId> {
    if page == [] then []
    else (if IsActive(o, page[0].tenant) then [page[0].tenant] else []) + ListActive(o, page[1..])
  }

  /** The filter on active organizations drops no item, so the page holds what the total counts. */
  lemma {:induction false} ListDropsNothing(o: OrgTables, page: seq<Seat>)
    requires Staffed(o) && forall s | s in page :: s in o.members
    ensures |ListActive(o, page)| == |page|
    ensures forall i | 0 <= i < |page| :: ListActive(o, page)[i] == page[i].tenant
  {
    if page != [] {
      assert page[0] in page;
      ListDropsNothing(o, page[1..]);
    }
  }
}
