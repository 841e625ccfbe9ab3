/** Conditions on rows, read off their columns. The statements about whole requests use these, so that they do not rest
    on the lookups of the services. */
module Columns {
  import opened Wrappers
  import opened Rows
  import opened Tables

  ghost predicate IsOpen(o: OrgTables, tenant: TenantId) {
    tenant in o.organizations && o.organizations[tenant].deletedAt.None?
  }

  /** A member of the live organization with one of these roles. */
  ghost predicate HoldsRole(o: OrgTables, tenant: TenantId, user: UserId, roles: set<Role>) {
    IsOpen(o, tenant) && Seat(tenant, user) in o.members && o.members[Seat(tenant, user)] in roles
  }

  ghost predicate IsBotLive(b: BotTables, bot: BotId) {
    bot in b.bots && b.bots[bot].deletedAt.None?
  }

  ghost predicate LiveBot(b: BotTables, tenant: TenantId, bot: BotId) {
    IsBotLive(b, bot) && b.bots[bot].tenant == tenant
  }

  ghost predicate LiveKey(b: BotTables, bot: BotId, key: nat) {
    IsBotLive(b, bot) && b.bots[bot].apiKey == key
  }

  ghost predicate LiveDestination(d: DestinationTables, tenant: TenantId, id: DestinationId) {
    id in d.destinations && d.destinations[id].tenant == tenant && d.destinations[id].deletedAt.None?
  }

  ghost predicate IsSubscribed(d: DestinationTables, tenant: TenantId, bot: BotId, id: DestinationId) {
    var key := SubscriptionKey(bot, id);
    && key in d.subscriptions && d.subscriptions[key].tenant == tenant && d.subscriptions[key].deletedAt.None?
    && d.subscriptions[key].status == Active
  }

  ghost predicate LiveMessage(m: MessageTables, tenant: TenantId, id: MessageId) {
    id in m.messages && m.messages[id].tenant == tenant && m.messages[id].deletedAt.None?
  }
}
