/** The daily retention purge: batched hard deletes of usage events and delivery logs. */
module Purge {
  import opened Wrappers
  import opened Rows

  type Events = map<EventId, UsageEvent>
  type Logs = map<LogKey, DeliveryLog>

  const BATCH_SIZE: nat := 1000
  const DAY: nat := 86_400_000

  datatype Target = Target(tenant: TenantId, retentionDays: nat)

  function Cutoff(t: Target, now: nat): int {
    now - t.retentionDays * DAY
  }

  function StaleEvents(events: Events, tenant: TenantId, before: int): set<EventId> {
    set e | e in events && events[e].tenant == tenant && events[e].createdAt < before
  }

  function StaleLogs(logs: Logs, tenant: TenantId, before: int): set<LogKey> {
    set l | l in logs && logs[l].tenant == tenant && logs[l].createdAt < before
  }

  ghost function FreshEvents(events: Events, tenant: TenantId, before: int): Events {
    map e | e in events && !(events[e].tenant == tenant && events[e].createdAt < before) :: events[e]
  }

  ghost function FreshLogs(logs: Logs, tenant: TenantId, before: int): Logs {
    map l | l in logs && !(logs[l].tenant == tenant && logs[l].createdAt < before) :: logs[l]
  }

  /** The foreign key from usage events to delivery logs. */
  predicate Referenced(events: Events, l: LogKey) {
    exists e | e in events :: events[e].log == Some(l)
  }

  ghost predicate Blocked(events: Events, logs: Logs, tenant: TenantId, before: int) {
    exists l | l in StaleLogs(logs, tenant, before) :: Referenced(events, l)
  }

  /** Whether some target's retention no longer covers a row. */
  ghost predicate Expired(tenant: TenantId, createdAt: nat, targets: seq<Target>, now: nat) {
    exists i | 0 <= i < |targets| :: targets[i].tenant == tenant && createdAt < Cutoff(targets[i], now)
  }

  ghost function KeptEvents(events: Events, targets: seq<Target>, now: nat): Events {
    map e | e in events && !Expired(events[e].tenant, events[e].createdAt, targets, now) :: events[e]
  }

  ghost function KeptLogs(logs: Logs, targets: seq<Target>, now: nat): Logs {
    map l | l in logs && !Expired(logs[l].tenant, logs[l].createdAt, targets, now) :: logs[l]
  }

  /** Between a table and its purged form: some expired rows may be gone, no other row is. */
  ghost predicate PartlyPurged<K, R>(kept: map<K, R>, now: map<K, R>, before: map<K, R>) {
    && (forall k | k in kept :: k in now && now[k] == kept[k])
    && (forall k | k in now :: k in before && before[k] == now[k])
  }

  /** Where a purge may be cut short: by the database refusing a delete, or by the worker being killed
      after so many batches. */
  datatype Outcome = Finished(deleted: nat) | Refused | Killed

  /** LIMIT without ORDER BY: the database returns any rows it likes, but no fewer than it can. */
  method Limit<K(==)>(rows: set<K>, n: nat) returns (picked: set<K>)
    ensures picked <= rows && |picked| <= n
    ensures |picked| < n ==> picked == rows
  {
    picked := {};
    while |picked| < n && picked != rows
      invariant picked <= rows && |picked| <= n
      decreases rows - picked
    {
      var k :| k in rows && k !in picked;
      picked := picked + {k};
    }
  }

  class UsageStore {
    /** What the session sees, and what has been committed. */
    var events: Events
    var logs: Logs
    var durableEvents: Events
    var durableLogs: Logs
    /** Batches left before the worker is killed. */
    var patience: nat

    constructor (events: Events, logs: Logs, patience: nat)
      ensures this.events == this.durableEvents == events && this.logs == this.durableLogs == logs
      ensures this.patience == patience
    {
      this.events, this.logs, this.durableEvents, this.durableLogs := events, logs, events, logs;
      this.patience := patience;
    }

    ghost predicate Committed()
      reads this
    {
      events == durableEvents && logs == durableLogs
    }

    method Commit()
      modifies this`durableEvents, this`durableLogs
      ensures Committed()
    {
      durableEvents, durableLogs := events, logs;
    }

    /** One `DELETE ... WHERE id IN (SELECT ... LIMIT n)`: the database picks the rows. */
    method DeleteEventsBefore(tenant: TenantId, before: int, batchSize: nat) returns (deleted: nat)
      modifies this`events
      ensures PartlyPurged(FreshEvents(old(events), tenant, before), events, old(events))
      ensures deleted <= batchSize && |events| == |old(events)| - deleted
      ensures deleted < batchSize ==> events == FreshEvents(old(events), tenant, before)
      ensures deleted == 0 ==> events == old(events)
    {
      var stale := StaleEvents(events, tenant, before);
      var picked := Limit(stale, batchSize);
      SizeAfter(events, picked);
      events := events - picked;
      deleted := |picked|;
    }

    /** The same for delivery logs; a row a usage event still refers to refuses the statement. */
    method DeleteLogsBefore(tenant: TenantId, before: int, batchSize: nat) returns (deleted: Option<nat>)
      modifies this`logs
      ensures PartlyPurged(FreshLogs(old(logs), tenant, before), logs, old(logs))
      ensures deleted.None? ==> logs == old(logs) && Blocked(events, logs, tenant, before)
      ensures forall l | l in old(logs) && l !in logs :: !Referenced(events, l)
      ensures deleted.Some? ==> deleted.value <= batchSize && |logs| == |old(logs)| - deleted.value
      ensures deleted.Some? && deleted.value < batchSize ==> logs == FreshLogs(old(logs), tenant, before)
      ensures deleted == Some(0) ==> logs == old(logs)
    {
      var stale := StaleLogs(logs, tenant, before);
      var picked := Limit(stale, batchSize);
      if exists l | l in picked :: Referenced(events, l) {
        return None;
      }
      SizeAfter(logs, picked);
      LogsAfter(logs, picked, tenant, before);
      hide FreshLogs, StaleLogs, PartlyPurged;
      logs := logs - picked;
      deleted := Some(|picked|);
    }

    /** `_purge_all_batches` over usage events. */
    method PurgeEvents(tenant: TenantId, before: int) returns (r: Outcome)
      requires Committed()
      modifies this
      ensures Committed() && logs == old(logs)
      ensures !r.Refused? && (r.Killed? ==> patience == 0)
      ensures PartlyPurged(FreshEvents(old(events), tenant, before), events, old(events))
      ensures r.Finished? ==> events == FreshEvents(old(events), tenant, before)
      ensures r.Finished? ==> r.deleted == |old(events)| - |events|
    {
      var total := 0;
      while true
        invariant PartlyPurged(FreshEvents(old(events), tenant, before), events, old(events))
        invariant Committed() && logs == old(logs)
        invariant total == |old(events)| - |events|
        decreases |events|
      {
        if patience == 0 {
          return Killed;
        }
        patience := patience - 1;
        FreshEventsStay(old(events), events, tenant, before);
        var deleted := DeleteEventsBefore(tenant, before, BATCH_SIZE);
        total := total + deleted;
        if deleted == 0 {
          break;
        }
        Commit();
      }
      r := Finished(total);
    }

    /** `_purge_all_batches` over delivery logs. */
    method PurgeLogs(tenant: TenantId, before: int) returns (r: Outcome)
      requires Committed()
      modifies this
      ensures Committed() && events == old(events)
      ensures r.Killed? ==> patience == 0
      ensures PartlyPurged(FreshLogs(old(logs), tenant, before), logs, old(logs))
      ensures !r.Killed? ==> (r.Refused? <==> Blocked(events, old(logs), tenant, before))
      ensures r.Finished? ==> logs == FreshLogs(old(logs), tenant, before)
      ensures r.Finished? ==> r.deleted == |old(logs)| - |logs|
    {
      var total := 0;
      while true
        invariant PartlyPurged(FreshLogs(old(logs), tenant, before), logs, old(logs))
        invariant Committed() && events == old(events)
        invariant forall l | l in old(logs) && l !in logs :: !Referenced(events, l)
        invariant total == |old(logs)| - |logs|
        decreases |logs|
      {
        if patience == 0 {
          return Killed;
        }
        patience := patience - 1;
        FreshLogsStay(old(logs), logs, tenant, before);
        var deleted := DeleteLogsBefore(tenant, before, BATCH_SIZE);
        if deleted.None? {
          BlockedEarlier(events, old(logs), logs, tenant, before);
          return Refused;
        }
        total := total + deleted.value;
        if deleted.value == 0 {
          break;
        }
        Commit();
      }
      NothingBlocks(events, old(logs), logs, tenant, before);
      r := Finished(total);
    }

    /** One tenant of the purge loop: its usage events, then its delivery logs. */
    method PurgeTarget(t: Target, now: nat) returns (r: Outcome, eventsDeleted: nat, logsDeleted: nat)
      requires Committed()
      modifies this
      ensures Committed() && (r.Killed? ==> patience == 0)
      ensures PartlyPurged(FreshEvents(old(events), t.tenant, Cutoff(t, now)), events, old(events))
      ensures PartlyPurged(FreshLogs(old(logs), t.tenant, Cutoff(t, now)), logs, old(logs))
      ensures !r.Killed? ==> events == FreshEvents(old(events), t.tenant, Cutoff(t, now))
      ensures !r.Killed? ==> (r.Refused? <==> Blocked(events, old(logs), t.tenant, Cutoff(t, now)))
      ensures r.Finished? ==> logs == FreshLogs(old(logs), t.tenant, Cutoff(t, now))
      ensures r.Finished? ==> eventsDeleted == |old(events)| - |events| && logsDeleted == |old(logs)| - |logs|
    {
      eventsDeleted, logsDeleted := 0, 0;
      r := PurgeEvents(t.tenant, Cutoff(t, now));
      if r.Finished? {
        eventsDeleted := r.deleted;
        r := PurgeLogs(t.tenant, Cutoff(t, now));
        if r.Finished? {
          logsDeleted := r.deleted;
        }
      }
    }

    /** The loop over the targets. It stops in front of the first target it cannot finish. */
    method PurgeTargets(targets: seq<Target>, now: nat)
      returns (r: Outcome, i: nat, eventsDeleted: nat, logsDeleted: nat)
      requires Committed()
      modifies this
      ensures Committed() && (r.Killed? ==> patience == 0)
      ensures i <= |targets| && (r.Finished? <==> i == |targets|)
      ensures r.Finished? ==> events == KeptEvents(old(events), targets[..i], now)
      ensures r.Finished? ==> logs == KeptLogs(old(logs), targets[..i], now)
      ensures r.Finished? ==> eventsDeleted == |old(events)| - |events| && logsDeleted == |old(logs)| - |logs|
      ensures NoneBlocked(old(events), old(logs), targets, now, i)
      ensures r.Refused? ==> BlockedAt(old(events), old(logs), targets, now, i)
      ensures !r.Finished? ==> StoppedAt(old(events), old(logs), targets, i, now, events, logs)
    {
      eventsDeleted, logsDeleted, i := 0, 0, 0;
      while i < |targets|
        invariant i <= |targets|
        invariant Committed()
        invariant events == KeptEvents(old(events), targets[..i], now)
        invariant logs == KeptLogs(old(logs), targets[..i], now)
        invariant eventsDeleted == |old(events)| - |events| && logsDeleted == |old(logs)| - |logs|
        invariant NoneBlocked(old(events), old(logs), targets, now, i)
      {
        KeptStep(old(events), old(logs), targets, i, now);
        BlockedStep(old(events), old(logs), targets, i, now);
        var e, l;
        r, e, l := PurgeTarget(targets[i], now);
        if !r.Finished? {
          return;
        }
        eventsDeleted, logsDeleted := eventsDeleted + e, logsDeleted + l;
        i := i + 1;
      }
      r := Finished(0);
    }

    /** `_purge_expired_usage_data_async`. A run that ends by itself removes exactly the expired rows;
        it ends by itself, if not killed, unless a retained usage event refers to an expired log. */
    method PurgeExpired(targets: seq<Target>, now: nat) returns (r: Outcome, eventsDeleted: nat, logsDeleted: nat)
      requires Committed()
      modifies this
      ensures Committed() && (r.Killed? ==> patience == 0)
      ensures PartlyPurged(KeptEvents(old(events), targets, now), events, old(events))
      ensures PartlyPurged(KeptLogs(old(logs), targets, now), logs, old(logs))
      ensures r.Finished? ==> events == KeptEvents(old(events), targets, now)
      ensures r.Finished? ==> logs == KeptLogs(old(logs), targets, now)
      ensures r.Finished? ==> eventsDeleted == |old(events)| - |events| && logsDeleted == |old(logs)| - |logs|
      ensures !r.Killed? ==> (r.Refused? <==> RunBlocked(old(events), old(logs), targets, now))
    {
      var i;
      r, i, eventsDeleted, logsDeleted := PurgeTargets(targets, now);
      assert targets[..|targets|] == targets;
      if !r.Finished? {
        ExitPartly(old(events), old(logs), targets, i, now, events, logs);
      }
    }
  }

  /** Stopped inside target i: the targets before it are done, this one partly. */
  ghost predicate StoppedAt(events: Events, logs: Logs, targets: seq<Target>, i: nat, now: nat,
                            events': Events, logs': Logs)
  {
    && i < |targets|
    && var e, l := KeptEvents(events, targets[..i], now), KeptLogs(logs, targets[..i], now);
    && PartlyPurged(FreshEvents(e, targets[i].tenant, Cutoff(targets[i], now)), events', e)
    && PartlyPurged(FreshLogs(l, targets[i].tenant, Cutoff(targets[i], now)), logs', l)
  }

  lemma SizeAfter<K, R>(m: map<K, R>, victims: set<K>)
    requires victims <= m.Keys
    ensures |m - victims| == |m| - |victims|
  {
    assert (m - victims).Keys == m.Keys - victims;
  }

  /** Removing some of the expired logs. */
  lemma LogsAfter(logs: Logs, picked: set<LogKey>, tenant: TenantId, before: int)
    requires picked <= StaleLogs(logs, tenant, before)
    ensures PartlyPurged(FreshLogs(logs, tenant, before), logs - picked, logs)
    ensures picked == StaleLogs(logs, tenant, before) ==> logs - picked == FreshLogs(logs, tenant, before)
    ensures picked == {} ==> logs - picked == logs
    ensures forall l | l in logs && l !in logs - picked :: l in picked
  {
  }

  lemma FreshEventsStay(events: Events, events': Events, tenant: TenantId, before: int)
    requires PartlyPurged(FreshEvents(events, tenant, before), events', events)
    ensures FreshEvents(events', tenant, before) == FreshEvents(events, tenant, before)
  {
  }

  lemma FreshLogsStay(logs: Logs, logs': Logs, tenant: TenantId, before: int)
    requires PartlyPurged(FreshLogs(logs, tenant, before), logs', logs)
    ensures FreshLogs(logs', tenant, before) == FreshLogs(logs, tenant, before)
  {
  }

  lemma BlockedEarlier(events: Events, logs: Logs, logs': Logs, tenant: TenantId, before: int)
    requires forall l | l in logs' :: l in logs && logs[l] == logs'[l]
    requires Blocked(events, logs', tenant, before)
    ensures Blocked(events, logs, tenant, before)
  {
    var l :| l in StaleLogs(logs', tenant, before) && Referenced(events, l);
    assert l in StaleLogs(logs, tenant, before);
  }

  lemma NothingBlocks(events: Events, logs: Logs, logs': Logs, tenant: TenantId, before: int)
    requires logs' == FreshLogs(logs, tenant, before)
    requires forall l | l in logs && l !in logs' :: !Referenced(events, l)
    ensures !Blocked(events, logs, tenant, before)
  {
    forall l | l in StaleLogs(logs, tenant, before)
      ensures !Referenced(events, l)
    {
      assert l !in logs';
    }
  }

  /** When target j comes up: one of its expired logs is referred to by a usage event that the targets
      up to j, j included, retain. */
  ghost predicate BlockedAt(events: Events, logs: Logs, targets: seq<Target>, now: nat, j: int) {
    && 0 <= j < |targets|
    && Blocked(KeptEvents(events, targets[..j + 1], now), logs, targets[j].tenant, Cutoff(targets[j], now))
  }

  ghost predicate NoneBlocked(events: Events, logs: Logs, targets: seq<Target>, now: nat, n: int) {
    forall j | 0 <= j < n :: !BlockedAt(events, logs, targets, now, j)
  }

  ghost predicate RunBlocked(events: Events, logs: Logs, targets: seq<Target>, now: nat) {
    exists j | 0 <= j < |targets| :: BlockedAt(events, logs, targets, now, j)
  }

  lemma ExpiredGrows(targets: seq<Target>, i: nat, now: nat)
    requires i < |targets|
    ensures forall tenant: TenantId, createdAt: nat ::
              Expired(tenant, createdAt, targets[..i + 1], now)
              <==> Expired(tenant, createdAt, targets[..i], now)
                   || (targets[i].tenant == tenant && createdAt < Cutoff(targets[i], now))
  {
    forall tenant: TenantId, createdAt: nat
      ensures Expired(tenant, createdAt, targets[..i + 1], now)
              <==> Expired(tenant, createdAt, targets[..i], now)
                   || (targets[i].tenant == tenant && createdAt < Cutoff(targets[i], now))
    {
      if Expired(tenant, createdAt, targets[..i], now) {
        var j :| 0 <= j < i && targets[..i][j].tenant == tenant && createdAt < Cutoff(targets[..i][j], now);
        assert targets[..i + 1][j] == targets[..i][j];
      }
      if targets[i].tenant == tenant && createdAt < Cutoff(targets[i], now) {
        assert targets[..i + 1][i] == targets[i];
      }
      if Expired(tenant, createdAt, targets[..i + 1], now) {
        var j :| 0 <= j < i + 1 && targets[..i + 1][j].tenant == tenant
                 && createdAt < Cutoff(targets[..i + 1][j], now);
        assert j < i ==> targets[..i][j] == targets[..i + 1][j];
      }
    }
  }

  lemma KeptStep(events: Events, logs: Logs, targets: seq<Target>, i: nat, now: nat)
    requires i < |targets|
    ensures var kept := KeptEvents(events, targets[..i], now);
            FreshEvents(kept, targets[i].tenant, Cutoff(targets[i], now))
            == KeptEvents(events, targets[..i + 1], now)
    ensures var kept := KeptLogs(logs, targets[..i], now);
            FreshLogs(kept, targets[i].tenant, Cutoff(targets[i], now))
            == KeptLogs(logs, targets[..i + 1], now)
  {
    ExpiredGrows(targets, i, now);
  }

  lemma PrefixKeptMore(events: Events, logs: Logs, targets: seq<Target>, i: nat, now: nat)
    requires i <= |targets|
    ensures PartlyPurged(KeptEvents(events, targets, now), KeptEvents(events, targets[..i], now), events)
    ensures PartlyPurged(KeptLogs(logs, targets, now), KeptLogs(logs, targets[..i], now), logs)
  {
    forall tenant: TenantId, createdAt: nat | Expired(tenant, createdAt, targets[..i], now)
      ensures Expired(tenant, createdAt, targets, now)
    {
      var j :| 0 <= j < i && targets[..i][j].tenant == tenant && createdAt < Cutoff(targets[..i][j], now);
      assert targets[j] == targets[..i][j];
    }
  }

  lemma ExitPartly(events: Events, logs: Logs, targets: seq<Target>, i: nat, now: nat, events': Events, logs': Logs)
    requires StoppedAt(events, logs, targets, i, now, events', logs')
    ensures PartlyPurged(KeptEvents(events, targets, now), events', events)
    ensures PartlyPurged(KeptLogs(logs, targets, now), logs', logs)
  {
    KeptStep(events, logs, targets, i, now);
    PrefixKeptMore(events, logs, targets, i + 1, now);
  }

  lemma ExpiredStays(tenant: TenantId, createdAt: nat, targets: seq<Target>, j: nat, i: nat, now: nat)
    requires j <= i <= |targets| && Expired(tenant, createdAt, targets[..j], now)
    ensures Expired(tenant, createdAt, targets[..i], now)
  {
    var k :| 0 <= k < j && targets[..j][k].tenant == tenant && createdAt < Cutoff(targets[..j][k], now);
    assert targets[..i][k] == targets[..j][k];
  }

  /** An event that survives more targets survived fewer. */
  lemma ReferencedEarlier(events: Events, targets: seq<Target>, j: nat, i: nat, now: nat, l: LogKey)
    requires j <= i <= |targets|
    requires Referenced(KeptEvents(events, targets[..i], now), l)
    ensures Referenced(KeptEvents(events, targets[..j], now), l)
  {
    var kept := KeptEvents(events, targets[..i], now);
    var e :| e in kept && kept[e].log == Some(l);
    if Expired(events[e].tenant, events[e].createdAt, targets[..j], now) {
      ExpiredStays(events[e].tenant, events[e].createdAt, targets, j, i, now);
    }
    assert e in KeptEvents(events, targets[..j], now);
  }

  /** A log an earlier target already removed was referred to by no event then, so by none now. */
  lemma RemovedNotReferenced(events: Events, logs: Logs, targets: seq<Target>, i: nat, now: nat, l: LogKey)
    requires i < |targets|
    requires NoneBlocked(events, logs, targets, now, i)
    requires l in logs && Referenced(KeptEvents(events, targets[..i + 1], now), l)
    ensures l in KeptLogs(logs, targets[..i], now)
  {
    if Expired(logs[l].tenant, logs[l].createdAt, targets[..i], now) {
      var j :| 0 <= j < i && targets[..i][j].tenant == logs[l].tenant
               && logs[l].createdAt < Cutoff(targets[..i][j], now);
      assert targets[j] == targets[..i][j];
      ReferencedEarlier(events, targets, j + 1, i + 1, now, l);
      assert l in StaleLogs(logs, targets[j].tenant, Cutoff(targets[j], now));
      assert BlockedAt(events, logs, targets, now, j);
    }
  }

  lemma BlockedStep(events: Events, logs: Logs, targets: seq<Target>, i: nat, now: nat)
    requires i < |targets|
    requires NoneBlocked(events, logs, targets, now, i)
    ensures BlockedAt(events, logs, targets, now, i)
            <==> Blocked(KeptEvents(events, targets[..i + 1], now), KeptLogs(logs, targets[..i], now),
                         targets[i].tenant, Cutoff(targets[i], now))
  {
    var kept, left := KeptEvents(events, targets[..i + 1], now), KeptLogs(logs, targets[..i], now);
    if BlockedAt(events, logs, targets, now, i) {
      var l :| l in StaleLogs(logs, targets[i].tenant, Cutoff(targets[i], now)) && Referenced(kept, l);
      RemovedNotReferenced(events, logs, targets, i, now, l);
      assert l in StaleLogs(left, targets[i].tenant, Cutoff(targets[i], now));
    }
    if Blocked(kept, left, targets[i].tenant, Cutoff(targets[i], now)) {
      BlockedEarlier(kept, logs, left, targets[i].tenant, Cutoff(targets[i], now));
    }
  }

  lemma ExpiredLater(tenant: TenantId, createdAt: nat, targets: seq<Target>, now: nat, later: nat)
    requires now <= later && Expired(tenant, createdAt, targets, now)
    ensures Expired(tenant, createdAt, targets, later)
  {
    var i :| 0 <= i < |targets| && targets[i].tenant == tenant && createdAt < Cutoff(targets[i], now);
    assert createdAt < Cutoff(targets[i], later);
  }

  /** Rerunning later, after a stop, reaches the tables an uninterrupted run at that later time reaches. */
  lemma RerunReachesTheSame(events: Events, logs: Logs, events': Events, logs': Logs,
                            targets: seq<Target>, now: nat, later: nat)
    requires now <= later
    requires PartlyPurged(KeptEvents(events, targets, now), events', events)
    requires PartlyPurged(KeptLogs(logs, targets, now), logs', logs)
    ensures KeptEvents(events', targets, later) == KeptEvents(events, targets, later)
    ensures KeptLogs(logs', targets, later) == KeptLogs(logs, targets, later)
  {
    forall tenant: TenantId, createdAt: nat | Expired(tenant, createdAt, targets, now)
      ensures Expired(tenant, createdAt, targets, later)
    {
      ExpiredLater(tenant, createdAt, targets, now, later);
    }
    hide Expired;
  }

  /** A row is expired when it is older than its retention, in days of 24 hours; a row exactly that old is kept. */
  lemma RetentionMeans(tenant: TenantId, createdAt: nat, days: nat, now: nat)
    ensures Expired(tenant, createdAt, [Target(tenant, days)], now) <==> createdAt + days * (24 * 60 * 60 * 1000) < now
    ensures BATCH_SIZE == 1000
  {
    var targets := [Target(tenant, days)];
    assert targets[0].tenant == tenant;
  }

  /** The purge can be refused: an event recorded three days after its log, and a cutoff between the two. */
  lemma APurgeIsRefused()
    ensures var log := LogKey(4, 3);
            var events := map[0 := UsageEvent(1, Some(log), 4 * DAY)];
            var logs := map[log := DeliveryLog(1, Sent, None, None, Some(4 * DAY), DAY)];
            RunBlocked(events, logs, [Target(1, 3)], 5 * DAY)
  {
    var log, targets := LogKey(4, 3), [Target(1, 3)];
    var events := map[0 := UsageEvent(1, Some(log), 4 * DAY)];
    var logs := map[log := DeliveryLog(1, Sent, None, None, Some(4 * DAY), DAY)];
    var kept := KeptEvents(events, targets[..1], 5 * DAY);
    assert !Expired(1, 4 * DAY, targets[..1], 5 * DAY);
    assert 0 in kept && kept[0].log == Some(log);
    assert log in StaleLogs(logs, 1, Cutoff(targets[0], 5 * DAY));
    assert BlockedAt(events, logs, targets, 5 * DAY, 0);
  }
}
