/** The task broker as the code calls it, with the history only the proofs see. */
module Celery {
  import opened Wrappers
  import opened Rows
  import opened State
  import opened Platforms
  import opened Database
  import FixedWindow

  /** The first tasks of `logs` were enqueued, except those of `lost`, which a dying process left out. */
  ghost predicate Enqueued(q: Broker, h: History, q': Broker, h': History, logs: set<LogKey>, lost: set<LogKey>, now: nat) {
    && q' == EnqueueAll(q, logs - lost, Ticket(0, now))
    && h' == NoteAll(h, logs * lost, multiset{EnqueueLost})
  }

  lemma NoneEnqueued(q: Broker, h: History, lost: set<LogKey>, now: nat)
    ensures Enqueued(q, h, q, h, {}, lost, now)
  {
    assert EnqueueAll(q, {} - lost, Ticket(0, now)) == q;
    assert NoteAll(h, {} * lost, multiset{EnqueueLost}) == h;
  }

  lemma EnqueueAllTwice(q: Broker, a: set<LogKey>, b: set<LogKey>, t: Ticket)
    requires a !! b
    ensures EnqueueAll(EnqueueAll(q, a, t), b, t) == EnqueueAll(q, a + b, t)
  {
    forall l | l in b {
      JoinedElsewhere(q, a, t, l);
    }
    hide Joined;
  }

  lemma JoinedElsewhere(q: Broker, a: set<LogKey>, t: Ticket, l: LogKey)
    requires l !in a
    ensures Joined(EnqueueAll(q, a, t), l, t) == Joined(q, l, t)
  {
  }

  lemma NoteAllTwice(h: History, a: set<LogKey>, b: set<LogKey>, marks: multiset<Mark>)
    requires a !! b
    ensures NoteAll(NoteAll(h, a, marks), b, marks) == NoteAll(h, a + b, marks)
  {
  }

  /** Enqueueing for more logs, none of them handled before. */
  lemma EnqueuedMore(q: Broker, h: History, q1: Broker, h1: History, q2: Broker, h2: History,
                     logs: set<LogKey>, more: set<LogKey>, lost: set<LogKey>, now: nat)
    requires Enqueued(q, h, q1, h1, logs, lost, now) && Enqueued(q1, h1, q2, h2, more, lost, now) && logs !! more
    ensures Enqueued(q, h, q2, h2, logs + more, lost, now)
  {
    hide EnqueueAll, NoteAll;
    EnqueueAllTwice(q, logs - lost, more - lost, Ticket(0, now));
    NoteAllTwice(h, logs * lost, more * lost, multiset{EnqueueLost});
    assert (logs + more) * lost == logs * lost + more * lost;
    assert (logs + more) - lost == (logs - lost) + (more - lost);
  }

  lemma QueueOfOne(q: Broker, l: LogKey, t: Ticket)
    ensures EnqueueAll(q, {}, t) == q && EnqueueAll(q, {l}, t) == Enqueue(q, l, t)
  {
    hide Joined;
  }

  lemma HistoryOfOne(h: History, l: LogKey, marks: multiset<Mark>)
    ensures NoteAll(h, {}, marks) == h && NoteAll(h, {l}, marks) == Note(h, l, marks)
  {
  }

  lemma OneEnqueued(q: Broker, h: History, l: LogKey, lost: set<LogKey>, now: nat)
    ensures if l in lost then Enqueued(q, h, q, Note(h, l, multiset{EnqueueLost}), {l}, lost, now)
            else Enqueued(q, h, Enqueue(q, l, Ticket(0, now)), h, {l}, lost, now)
  {
    hide EnqueueAll, Enqueue, NoteAll, Note;
    QueueOfOne(q, l, Ticket(0, now));
    HistoryOfOne(h, l, multiset{EnqueueLost});
    if l in lost {
      assert {l} * lost == {l} && {l} - lost == {};
    } else {
      assert {l} * lost == {} && {l} - lost == {l};
    }
  }

  lemma NextRow(rows: seq<LogKey>, i: nat)
    requires i < |rows| && Distinct(rows)
    ensures KeySet(rows[..i + 1]) == KeySet(rows[..i]) + {rows[i]} && rows[i] !in KeySet(rows[..i])
  {
    assert rows[..i + 1] == rows[..i] + [rows[i]];
  }

  /** The loop has handled the first i logs. */
  ghost predicate Reached(q: Broker, h: History, q': Broker, h': History, rows: seq<LogKey>, i: nat, lost: set<LogKey>,
                          now: nat)
  {
    i <= |rows| && Enqueued(q, h, q', h', KeySet(rows[..i]), lost, now)
  }

  lemma NothingYet(q: Broker, h: History, rows: seq<LogKey>, lost: set<LogKey>, now: nat)
    ensures Reached(q, h, q, h, rows, 0, lost, now)
  {
    NoneEnqueued(q, h, lost, now);
    assert KeySet(rows[..0]) == {};
    hide Enqueued;
  }

  lemma AllReached(q: Broker, h: History, q': Broker, h': History, rows: seq<LogKey>, lost: set<LogKey>, now: nat)
    requires Reached(q, h, q', h', rows, |rows|, lost, now)
    ensures Enqueued(q, h, q', h', KeySet(rows), lost, now)
  {
    assert rows[..|rows|] == rows;
    hide Enqueued;
  }

  lemma EnqueuedNext(q: Broker, h: History, q1: Broker, h1: History, q2: Broker, h2: History,
                     rows: seq<LogKey>, i: nat, lost: set<LogKey>, now: nat)
    requires i < |rows| && Distinct(rows) && Reached(q, h, q1, h1, rows, i, lost, now)
    requires if rows[i] in lost then q2 == q1 && h2 == Note(h1, rows[i], multiset{EnqueueLost})
             else q2 == Enqueue(q1, rows[i], Ticket(0, now)) && h2 == h1
    ensures Reached(q, h, q2, h2, rows, i + 1, lost, now)
  {
    hide Enqueued, KeySet, Note, Enqueue, Distinct;
    OneEnqueued(q1, h1, rows[i], lost, now);
    NextRow(rows, i);
    EnqueuedMore(q, h, q1, h1, q2, h2, KeySet(rows[..i]), {rows[i]}, lost, now);
  }

  class Celery {
    var queue: Broker
    ghost var history: History
    ghost var trace: multiset<Event>
    ghost var calls: seq<FixedWindow.Call<ThrottleKey>>

    constructor ()
      ensures queue == map[] && history == map[] && trace == multiset{} && calls == []
    {
      queue, history, trace, calls := map[], map[], multiset{}, [];
    }

    method ApplyAsync(l: LogKey, t: Ticket)
      modifies this`queue
      ensures queue == Enqueue(old(queue), l, t)
    {
      queue := Enqueue(queue, l, t);
    }

    /** The broker is told that a job is over. */
    method Acknowledge(l: LogKey, t: Ticket)
      modifies this`queue
      ensures queue == Take(old(queue), l, t)
    {
      queue := queue[l := Tickets(queue, l) - multiset{t}];
    }

    /** `delay` for each log; the iterations a dying process does not reach are those of `lost`. */
    method DelayAll(rows: seq<LogKey>, lost: set<LogKey>, now: nat)
      requires Distinct(rows)
      modifies this`queue, this`history
      ensures Enqueued(old(queue), old(history), queue, history, KeySet(rows), lost, now)
    {
      NothingYet(queue, history, rows, lost, now);
      var i := 0;
      while i < |rows|
        invariant 0 <= i <= |rows|
        invariant Reached(old(queue), old(history), queue, history, rows, i, lost, now)
      {
        ghost var q, h := queue, history;
        DelayOne(rows[i], lost, now);
        EnqueuedNext(old(queue), old(history), q, h, queue, history, rows, i, lost, now);
        i := i + 1;
      }
      AllReached(old(queue), old(history), queue, history, rows, lost, now);
    }

    method DelayOne(l: LogKey, lost: set<LogKey>, now: nat)
      modifies this`queue, this`history
      ensures if l in lost then queue == old(queue) && history == Note(old(history), l, multiset{EnqueueLost})
              else queue == Enqueue(old(queue), l, Ticket(0, now)) && history == old(history)
    {
      if l in lost {
        history := Note(history, l, multiset{EnqueueLost});
      } else {
        ApplyAsync(l, Ticket(0, now));
      }
    }
  }
}
