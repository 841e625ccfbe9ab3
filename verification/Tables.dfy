/** The database tables, grouped by the module that owns them, and the errors requests end with. */
module Tables {
  import opened Wrappers
  import opened Rows

  datatype Seat = Seat(tenant: TenantId, user: UserId)

  /** `members` has at most one row per organization and user, by its unique constraint. */
  datatype OrgTables = OrgTables(organizations: map<TenantId, Organization>, members: map<Seat, Role>)

  datatype BotTables = BotTables(bots: map<BotId, Bot>, assignments: map<AssignmentId, BotAssignment>)

  datatype DestinationTables = DestinationTables(
    destinations: map<DestinationId, Destination>,
    subscriptions: map<SubscriptionKey, Subscription>)

  datatype MessageTables = MessageTables(messages: map<MessageId, Message>, logs: map<LogKey, DeliveryLog>)

  datatype AuthTables = AuthTables(tokens: map<TokenId, RefreshToken>)

  datatype AppError =
    | OrganizationNotFound | NotOrganizationMember | InsufficientPermission
    | MemberUserNotFound | AlreadyMember | MembershipNotFound | LastOwner
    | BotNotFound | BotAlreadyRegistered | BotApiKeyInvalid | WebhookSecretInvalid
    | BotNotAssigned | BotAssignmentUserNotMember | BotAssignmentAlreadyExists | BotAssignmentNotFound
    | DestinationNotFound | DestinationAlreadyExists | SubscriptionNotFound | DestinationNotSubscribed
    | MessageTemplateNotFound | TemplateVariableMissing | ScheduledAtInPast | Unprocessable
    | RefreshTokenInvalid
    /** A unique or primary key refused an insert. */
    | IntegrityError
    /** A query that expects at most one row met two. */
    | MultipleResultsFound
}
