/** Fan-out and delivery of webhook events (pulsepay/webhooks/dispatcher.py). */
module WebhookServices {
  import opened Common
  import opened Jobs
  import opened Refunds
  import opened Webhooks
  import opened System
  import opened Store
  import opened HandlerSteps

  // ---------------------------------------------------------------- one endpoint more

  lemma FanoutMore(q: Queue, base: nat, n: nat, i: nat, now: real)
    requires i < n
    ensures Jobs.Enqueue(Insert(q, FanoutRows(base, n, i, now), FanoutTails(base, n, i, now)), base + n + i,
        DeliverWebhook(base + i), now)
         == Insert(q, FanoutRows(base, n, i + 1, now), FanoutTails(base, n, i + 1, now))
  {
    var rows, more := FanoutRows(base, n, i, now), FanoutRows(base, n, i + 1, now);
    var one := map[base + n + i := NewJob(DeliverWebhook(base + i), now)];
    FanoutShape(base, n, i, now);
    FanoutShape(base, n, i + 1, now);
    assert more == rows + one;
    assert FanoutTails(base, n, i + 1, now) == FanoutTails(base, n, i, now) + [Tail(base + n + i, Some(now))];
    assert q.jobs + more == (q.jobs + rows) + one;
    InsertTwice(q.starts, rows, one);
    assert q.tails + FanoutTails(base, n, i + 1, now)
        == (q.tails + FanoutTails(base, n, i, now)) + [Tail(base + n + i, Some(now))];
  }

  lemma InsertTwice(starts: map<nat, nat>, rows: map<nat, Job>, one: map<nat, Job>)
    ensures starts + (map j | j in rows + one :: 0) == (starts + (map j | j in rows :: 0)) + (map j | j in one :: 0)
  {}

  lemma FanoutNone(q: Queue, base: nat, n: nat, now: real)
    ensures Insert(q, FanoutRows(base, n, 0, now), FanoutTails(base, n, 0, now)) == q
  {
    assert FanoutRows(base, n, 0, now) == map[];
    assert q.starts + (map j | j in FanoutRows(base, n, 0, now) :: 0) == q.starts;
  }

  lemma EventsMore(base: nat, refund: nat, ids: seq<nat>, i: nat)
    requires i < |ids|
    ensures FanoutEvents(base, refund, ids[..i])[base + i := NewEvent(ids[i], refund)]
        == FanoutEvents(base, refund, ids[..i + 1])
  {}

  class WebhookDispatcher {
    const app: Backend

    constructor (app: Backend)
      ensures this.app == app
    {
      this.app := app;
    }

    /** The customer's active endpoints, in whatever order the database lists them. */
    method ActiveEndpoints(customer: string) returns (ids: seq<nat>)
      ensures Audience(app.View(), customer, ids)
    {
      ids := [];
      var rest := app.db.endpoints.Keys;
      while rest != {}
        invariant rest <= app.db.endpoints.Keys
        invariant forall i :: 0 <= i < |ids| ==> Listening(app.View(), customer, ids[i]) && ids[i] !in rest
        invariant forall e :: e in app.db.endpoints && e !in rest && Listening(app.View(), customer, e) ==> e in ids
        invariant forall i, k :: 0 <= i < k < |ids| ==> ids[i] != ids[k]
        decreases rest
      {
        var e :| e in rest;
        rest := rest - {e};
        if app.db.endpoints[e].client == customer && app.db.endpoints[e].active {
          ids := ids + [e];
        }
      }
    }

    /** Adds an event per endpoint to the session, and enqueues its delivery job in a session of its
        own; `stopAfter` delivery jobs an exception may roll the session back. */
    method FanOut(ids: seq<nat>, refund: nat, base: nat, stopAfter: nat) returns (pending: map<nat, Event>)
      requires app.Wired() && stopAfter <= |ids|
      modifies app.queue`tails, app.db`jobs, app.db`starts
      ensures pending == FanoutEvents(base, refund, ids[..stopAfter])
      ensures app.View() == old(app.View()).(q :=
        Insert(old(app.View()).q, FanoutRows(base, |ids|, stopAfter, app.db.clock),
            FanoutTails(base, |ids|, stopAfter, app.db.clock)))
    {
      hide Jobs.Enqueue, Insert, FanoutRows, FanoutTails, FanoutEvents;
      var n, now := |ids|, app.db.clock;
      ghost var w, q := app.worker.current, app.queue.View(app.worker.current);
      pending := map[];
      FanoutNone(q, base, n, now);
      NoEvents(base, refund, ids);
      for i := 0 to stopAfter
        invariant pending == FanoutEvents(base, refund, ids[..i])
        invariant app.queue.View(w) == Insert(q, FanoutRows(base, n, i, now), FanoutTails(base, n, i, now))
        invariant app.queue.dispatch == old(app.queue.dispatch)
      {
        pending := pending[base + i := NewEvent(ids[i], refund)];
        app.queue.Enqueue(base + n + i, DeliverWebhook(base + i), None);
        FanoutMore(q, base, n, i, now);
        EventsMore(base, refund, ids, i);
      }
    }

    lemma NoEvents(base: nat, refund: nat, ids: seq<nat>)
      ensures FanoutEvents(base, refund, ids[..0]) == map[]
    {}

    /** Commits an event per endpoint together with the completed refund that the session holds;
        or is cut short, and leaves nothing but delivery jobs behind. */
    method Tell(id: nat, refund: RefundRow, ids: seq<nat>, cut: Cut) returns (taken: Cut)
      requires app.Wired() && id in app.db.refunds
      requires refund.Value() == app.db.refunds[id].(status := RefundStatus.Completed)
      modifies app.queue, app.db
      ensures if cut.CutDuring?
        then taken.CutDuring? && taken.enqueued <= |ids| && taken.enqueued <= cut.enqueued
        else taken == cut
      ensures app.View() ==
        if taken.CutDuring?
        then FanoutJobs(old(app.View()), |ids|, taken.enqueued)
        else Complete(old(app.View()), id, ids)
    {
      hide Insert, FanoutRows, FanoutTails, FanoutEvents;
      taken := if cut.CutDuring? && cut.enqueued > |ids| then CutDuring(|ids|) else cut;
      var base := app.FreshIds(2 * |ids|);
      var pending := FanOut(ids, id, base, if taken.CutDuring? then taken.enqueued else |ids|);
      if taken.CutDuring? {
        return;
      }
      assert ids[..|ids|] == ids;
      app.db.refunds := app.db.refunds[id := refund.Value()];
      app.db.events := app.db.events + pending;
      app.db.posts := app.db.posts + (map e | e in Range(base, |ids|) :: []);
    }

    /** Tells every listening endpoint. */
    method Dispatch(id: nat, refund: RefundRow, customer: string, cut: Cut) returns (ids: seq<nat>, taken: Cut)
      requires app.Wired() && id in app.db.refunds
      requires refund.Value() == app.db.refunds[id].(status := RefundStatus.Completed)
      modifies app.queue, app.db
      ensures Audience(old(app.View()), customer, ids)
      ensures if cut.CutDuring?
        then taken.CutDuring? && taken.enqueued <= |ids| && taken.enqueued <= cut.enqueued
        else taken == cut
      ensures app.View() ==
        if taken.CutDuring?
        then FanoutJobs(old(app.View()), |ids|, taken.enqueued)
        else Complete(old(app.View()), id, ids)
    {
      hide FanoutJobs, Complete, Audience;
      ids := ActiveEndpoints(customer);
      taken := Tell(id, refund, ids, cut);
    }

    /** What a delivery leaves in the event's row. */
    method Record(event: EventRow, delivered: bool, jitter: real, now: real)
      modifies event
      ensures event.Value() == AfterPost(old(event.Value()), delivered, jitter, now)
    {
      event.lastAttemptAt := Some(now);
      event.attempts := event.attempts + 1;
      if delivered {
        event.status := Delivered;
        event.nextRetryAt := None;
      } else if event.attempts >= 5 {
        event.status := EventStatus.Dead;
        event.nextRetryAt := None;
      } else {
        var delay := Pow2(event.attempts) + jitter;
        event.status := EventStatus.Failed;
        event.nextRetryAt := Some(now + delay);
      }
    }

    /** The endpoint is inactive or gone. */
    method GiveUp(event: EventRow, now: real)
      modifies event
      ensures event.Value() == Undeliverable(old(event.Value()), now)
    {
      event.status := EventStatus.Dead;
      event.lastAttemptAt := Some(now);
      event.nextRetryAt := None;
    }

    /** The POST goes out, and its answer comes `elapsed` seconds later. */
    method Send(id: nat, ok: bool, elapsed: real, ghost recorded: bool)
      modifies app.db`clock, app.db`posts
      ensures app.View() == Sent(old(app.View()), id, ok, elapsed, recorded)
    {
      app.db.posts := app.db.posts[id := PostsOf(app.View(), id) + [Post(ok, recorded, app.db.clock)]];
      app.db.clock := app.db.clock + elapsed;
    }

    /** `deliver_webhook`: one POST at most, recorded and followed up. */
    method Deliver(id: nat, ok: bool, elapsed: real, jitter: real, cut: DeliveryCut)
      requires app.Wired() && Current(app.View()) == Some(DeliverWebhook(id))
      modifies app.db, app.queue, app.worker
      ensures app.View() == DeliverStep(old(app.View()), ok, elapsed, jitter, cut)
    {
      hide AfterPost, Undeliverable, Sent, System.Record;
      var db := app.db;
      if cut == CutBeforePost {
        app.worker.Advance(Raised(Aborted));
        return;
      }
      if id !in db.events {
        app.worker.Advance(Returned);
        return;
      }
      var event := new EventRow(db.events[id]);
      if event.endpoint !in db.endpoints || !db.endpoints[event.endpoint].active {
        GiveUp(event, db.clock);
        Commit(id, event);
        return;
      }
      var now := db.clock;
      Send(id, ok, elapsed, cut != CutAfterPost);
      if cut == CutAfterPost {
        app.worker.Advance(Raised(Aborted));
        return;
      }
      Record(event, ok, jitter, now);
      Commit(id, event);
    }

    /** A failed attempt's successor is enqueued first, then the row is committed. */
    method Commit(id: nat, event: EventRow)
      requires app.Wired() && id in app.db.events
      modifies app.db, app.queue, app.worker
      ensures app.View() == System.Record(old(app.View()), id, event.Value())
    {
      hide Jobs.Enqueue, Enter;
      ghost var s := app.View();
      if event.status == EventStatus.Failed && event.nextRetryAt.Some? {
        var job := app.FreshIds(1);
        app.queue.Enqueue(job, DeliverWebhook(id), event.nextRetryAt);
        assert app.queue.View(app.worker.current)
            == Jobs.Enqueue(s.q, s.next, DeliverWebhook(id), event.nextRetryAt.value);
      }
      app.db.events := app.db.events[id := event.Value()];
      app.worker.Advance(Returned);
    }
  }
}
