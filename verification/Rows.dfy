/** Identifiers and table rows. Timestamps are milliseconds; `deletedAt` and the like are None for NULL. */
module Rows {
  import opened Wrappers
  import opened Payload

  type TenantId = nat
  type UserId = nat
  type BotId = nat
  type AssignmentId = nat
  type DestinationId = nat
  type MessageId = nat
  type TokenId = nat
  type EventId = nat

  datatype Role = Owner | Admin | Member

  datatype Organization = Organization(deletedAt: Option<nat>)

  datatype Bot = Bot(tenant: TenantId, telegramBotId: int, apiKey: nat, webhookEnabled: bool, deletedAt: Option<nat>)

  datatype BotAssignment = BotAssignment(tenant: TenantId, bot: BotId, user: UserId, deletedAt: Option<nat>)

  datatype Destination = Destination(tenant: TenantId, chat: int, thread: Option<int>, deletedAt: Option<nat>)

  datatype SubscriptionStatus = Active | Unsubscribed | BlockedByAdmin

  /** Unique over all rows of `bot_destination_subscriptions`, deleted ones included. */
  datatype SubscriptionKey = SubscriptionKey(bot: BotId, destination: DestinationId)

  datatype Subscription = Subscription(tenant: TenantId, status: SubscriptionStatus, deletedAt: Option<nat>)

  datatype Message = Message(
    tenant: TenantId, bot: BotId, content: Content,
    scheduledAt: Option<nat>, dispatchedAt: Option<nat>, deletedAt: Option<nat>)

  datatype DeliveryStatus = Queued | Sent | Failed

  /** Unique over `delivery_logs`; it stands for the row's surrogate key as well. */
  datatype LogKey = LogKey(message: MessageId, destination: DestinationId)

  datatype DeliveryLog = DeliveryLog(
    tenant: TenantId, status: DeliveryStatus, telegramMessageId: Option<int>,
    errorReason: Option<string>, sentAt: Option<nat>, createdAt: nat)

  datatype UsageEvent = UsageEvent(tenant: TenantId, log: Option<LogKey>, createdAt: nat)

  /** `family` is not a column: it is the login or switch token this one descends from by rotation. */
  datatype RefreshToken = RefreshToken(
    user: UserId, tenant: Option<TenantId>, expiresAt: nat, revokedAt: Option<nat>, family: TokenId)

  predicate IsLive(deletedAt: Option<nat>) {
    deletedAt.None?
  }
}
