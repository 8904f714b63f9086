/** What deliveries and jobs do, seen from outside: in every reachable state, and in terms of the
    clock and the tables. */
module DeliveryEffects {
  import opened Common
  import opened Payments
  import opened Jobs
  import opened Refunds
  import opened Webhooks
  import opened System
  import opened Invariants
  import opened HandlerSteps
  import opened Growth
  import opened Runs
  import opened Frames
  import opened WorkTheorems
  import opened PostBounds
  import opened Effects

  // ---------------------------------------------------------------- delivering an event

  /** The event's endpoint is there, and active. */
  predicate Deliverable(s: State, e: nat) {
    && e in s.events && s.events[e].endpoint in s.endpoints && s.endpoints[s.events[e].endpoint].active
  }

  /** Exactly one POST went out, now, and its answer took `elapsed` seconds. */
  ghost predicate WasPosted(s: State, t: State, e: nat, ok: bool, recorded: bool, elapsed: real) {
    && t == s.(clock := s.clock + elapsed, posts := t.posts, events := t.events, next := t.next, q := t.q)
    && PostsOf(t, e) == PostsOf(s, e) + [Post(ok, recorded, s.clock)]
    && forall f :: f != e ==> PostsOf(t, f) == PostsOf(s, f)
  }

  /** What the answer makes of the event's row: delivered if it is good, and otherwise failed with a
      retry time, up to the fifth attempt, which ends it. */
  ghost predicate Answers(row: Event, row': Event, ok: bool, now: real) {
    && row'.refund == row.refund && row'.endpoint == row.endpoint
    && row'.attempts == row.attempts + 1 && row'.lastAttemptAt == Some(now)
    && (row'.status == Delivered <==> ok)
    && (row'.status == EventStatus.Dead <==> !ok && row'.attempts >= 5)
    && (row'.status == EventStatus.Failed <==> !ok && row'.attempts < 5)
    && (row'.nextRetryAt.Some? <==> row'.status == EventStatus.Failed)
    && (row'.nextRetryAt.Some? ==> 0.0 <= row'.nextRetryAt.value - (now + Pow2(row'.attempts)) < 1.0)
  }

  lemma AfterPostAnswers(row: Event, ok: bool, jitter: real, now: real)
    requires 0.0 <= jitter < 1.0
    ensures Answers(row, AfterPost(row, ok, jitter, now), ok, now)
  {}

  lemma SentPosts(s: State, e: nat, ok: bool, elapsed: real, recorded: bool)
    ensures WasPosted(s, Sent(s, e, ok, elapsed, recorded), e, ok, recorded, elapsed)
  {}

  lemma RecordPosts(s: State, t: State, e: nat, row: Event, ok: bool, recorded: bool, elapsed: real)
    requires WasPosted(s, t, e, ok, recorded, elapsed) && e in t.events
    ensures WasPosted(s, Record(t, e, row), e, ok, recorded, elapsed)
  {
    hide Enqueue, Enter, PostsOf, Enters;
    var u, s1 := Record(t, e, row), t.(events := t.events[e := row]);
    SameTablesEntered(s1, Returned);
    assert u == t.(events := u.events, next := u.next, q := u.q);
    forall f ensures PostsOf(u, f) == PostsOf(t, f) { SamePosts(t, u, f); }
  }

  lemma SameTablesEntered(s: State, phase: Phase)
    ensures Enters(s, phase) == s.(q := Enters(s, phase).q)
  {}

  /** The handler wrote the row, and queued the next attempt if there is to be one. */
  ghost predicate Recorded(s: State, t: State, e: nat, earliest: real) {
    && e in s.events && e in t.events && t.events == s.events[e := t.events[e]] && s.q.worker.Busy?
    && (t.events[e].nextRetryAt.Some? ==>
          && FollowedUp(s, t, DeliverWebhook(e), earliest)
          && t.q.jobs[s.next].runAt == t.events[e].nextRetryAt.value)
    && (t.events[e].nextRetryAt.None? ==>
          t.q == s.q.(worker := Busy(s.q.worker.job, Returned)) && t.next == s.next)
  }

  lemma RecordRecords(s: State, e: nat, row: Event, earliest: real)
    requires e in s.events && s.q.worker.Busy? && s.next !in s.q.jobs
    requires row.nextRetryAt.Some? ==>
      row.status == EventStatus.Failed && 0.0 <= row.nextRetryAt.value - earliest < 1.0
    ensures Recorded(s, Record(s, e, row), e, earliest)
  {
    if row.nextRetryAt.Some? {
      EnqueueFollows(s, Record(s, e, row), DeliverWebhook(e), row.nextRetryAt.value, earliest);
      EnqueueShape(s.q, s.next, DeliverWebhook(e), row.nextRetryAt.value);
      hide Enqueue, Enter, FollowedUp;
    }
  }

  lemma RecordedAfter(s: State, s1: State, t: State, e: nat, earliest: real)
    requires Recorded(s1, t, e, earliest) && s1.events == s.events && s1.q == s.q && s1.next == s.next
    ensures Recorded(s, t, e, earliest)
  {}

  lemma RunPosts(s: State, e: nat, ok: bool, elapsed: real, jitter: real)
    requires Deliverable(s, e) && s.q.worker.Busy? && s.next !in s.q.jobs && 0.0 <= jitter < 1.0
    ensures var t := DeliverRun(s, e, ok, elapsed, jitter, NoDeliveryCut);
      && WasPosted(s, t, e, ok, true, elapsed)
      && e in t.events && Answers(s.events[e], t.events[e], ok, s.clock)
      && Recorded(s, t, e, s.clock + Pow2(t.events[e].attempts))
  {
    hide AfterPost, Record, Sent, WasPosted, Recorded;
    var s1, row := Sent(s, e, ok, elapsed, true), AfterPost(s.events[e], ok, jitter, s.clock);
    SentKeeps(s, e, ok, elapsed, true);
    AfterPostAnswers(s.events[e], ok, jitter, s.clock);
    SentPosts(s, e, ok, elapsed, true);
    RecordPosts(s, s1, e, row, ok, true, elapsed);
    RecordRecords(s1, e, row, s.clock + Pow2(row.attempts));
    RecordWrites(s1, e, row);
    RecordedAfter(s, s1, Record(s1, e, row), e, s.clock + Pow2(row.attempts));
  }

  lemma SentKeeps(s: State, e: nat, ok: bool, elapsed: real, recorded: bool)
    ensures var t := Sent(s, e, ok, elapsed, recorded); t.events == s.events && t.q == s.q && t.next == s.next
  {}

  lemma RecordWrites(s: State, e: nat, row: Event)
    requires e in s.events
    ensures Record(s, e, row).events == s.events[e := row]
  {
    hide Enqueue, Enter, Enters;
    var s1 := s.(events := s.events[e := row]);
    EntersKeepsPosts(s1, Returned);
    if row.status == EventStatus.Failed && row.nextRetryAt.Some? {}
  }

  lemma DeliveryRuns(s: State, e: nat, ok: bool, elapsed: real, jitter: real, cut: DeliveryCut)
    requires Current(s) == Some(DeliverWebhook(e)) && e in s.events && 0.0 <= jitter < 1.0 && elapsed >= 0.0
    requires cut != CutBeforePost
    ensures Next(s, RunDelivery(ok, elapsed, jitter, cut)) == DeliverRun(s, e, ok, elapsed, jitter, cut)
  {
    hide DeliverRun;
  }

  lemma DeliveryState(s: State)
    requires Inv(s)
    ensures s.next !in s.q.jobs
  {
    hide Rows, QueueInv, LinkOk, BackoffOk, Known;
  }

  /** In every run, a delivery to an active endpoint POSTs once, now; the answer alone decides the
      row, and a failure up to the fourth queues exactly one more attempt, for the time in the row. */
  lemma DeliveryMeans(max: nat, run: seq<Action>, e: nat, ok: bool, elapsed: real, jitter: real)
    requires max >= 1 && Current(After(max, run)) == Some(DeliverWebhook(e)) && Deliverable(After(max, run), e)
    requires 0.0 <= jitter < 1.0 && elapsed >= 0.0
    ensures var s := After(max, run); var t := Next(s, RunDelivery(ok, elapsed, jitter, NoDeliveryCut));
      && WasPosted(s, t, e, ok, true, elapsed)
      && e in t.events && Answers(s.events[e], t.events[e], ok, s.clock)
      && Recorded(s, t, e, s.clock + Pow2(t.events[e].attempts))
  {
    hide Inv, After, DeliverRun, WasPosted, Answers, Recorded, Next;
    var s := After(max, run);
    Reached(max, run);
    DeliveryState(s);
    DeliveryRuns(s, e, ok, elapsed, jitter, NoDeliveryCut);
    RunPosts(s, e, ok, elapsed, jitter);
  }

  /** A handler that dies after the POST leaves the row and the jobs as they were. */
  lemma LostDeliveryMeans(s: State, e: nat, ok: bool, elapsed: real, jitter: real)
    requires Current(s) == Some(DeliverWebhook(e)) && Deliverable(s, e) && 0.0 <= jitter < 1.0 && elapsed >= 0.0
    ensures var t := Next(s, RunDelivery(ok, elapsed, jitter, CutAfterPost));
      && WasPosted(s, t, e, ok, false, elapsed)
      && t.events == s.events && t.next == s.next
      && t.q == s.q.(worker := Busy(s.q.worker.job, Raised(Aborted)))
  {
    DeliveryRuns(s, e, ok, elapsed, jitter, CutAfterPost);
    SentPosts(s, e, ok, elapsed, false);
    SentKeeps(s, e, ok, elapsed, false);
    hide Sent, Next, PostsOf;
  }

  /** An event whose endpoint is gone or inactive is never POSTed: its delivery ends it. */
  lemma InactiveMeans(s: State, e: nat, ok: bool, elapsed: real, jitter: real, cut: DeliveryCut)
    requires Current(s) == Some(DeliverWebhook(e)) && e in s.events && !Deliverable(s, e)
    requires 0.0 <= jitter < 1.0 && elapsed >= 0.0 && cut != CutBeforePost
    ensures var t := Next(s, RunDelivery(ok, elapsed, jitter, cut));
      && e in t.events
      && t == s.(events := s.events[e := t.events[e]], q := s.q.(worker := Busy(s.q.worker.job, Returned)))
      && t.events[e] == s.events[e].(status := EventStatus.Dead, lastAttemptAt := Some(s.clock), nextRetryAt := None)
  {}

  // ---------------------------------------------------------------- endpoints over whole runs

  lemma HandlerEndpoints(s: State, a: Action)
    requires a.RunPayment? || a.RunSoft? || a.RunRefund? || a.RunDelivery?
    ensures Next(s, a).endpoints == s.endpoints
  {
    hide PaymentStep, SoftStep, RefundStep, DeliverStep, Moves;
    match a
    case RunPayment(draw, fault) => PaymentFrame(s, draw, fault);
    case RunSoft(jitter, fault) => SoftFrame(s, jitter, fault);
    case RunRefund(draw, ids, cut) => RefundFrame(s, draw, ids, cut);
    case RunDelivery(ok, elapsed, jitter, cut) => DeliverFrame(s, ok, elapsed, jitter, cut);
  }

  lemma RequestEndpoints(s: State, a: Action)
    requires a.CreateRequest? || a.ConfirmRequest? || a.RefundRequest?
    ensures Next(s, a).endpoints == s.endpoints
  {
    hide Create, Confirm, Initiate;
    match a
    case CreateRequest(customer, cents, metadata, key) => CreateFrame(s, customer, cents, metadata, key);
    case ConfirmRequest(id, metadata, draw, cut) => ConfirmFrame(s, id, metadata, Classify(draw, cut), Http);
    case RefundRequest(id, cents, key) => InitiateFrame(s, id, cents, key);
  }

  lemma OuterEndpoints(s: State, a: Action, e: nat)
    requires OuterAction(a) && e in s.endpoints && e < s.next
    ensures var t := Next(s, a);
      e in t.endpoints && t.endpoints[e] ==
        if a == DeactivateEndpoint(e) then s.endpoints[e].(active := false) else s.endpoints[e]
  {}

  /** Only its own deactivation changes an endpoint. */
  lemma NextEndpoints(s: State, a: Action, e: nat)
    requires e in s.endpoints && e < s.next
    ensures var t := Next(s, a);
      e in t.endpoints && t.endpoints[e] ==
        if a == DeactivateEndpoint(e) then s.endpoints[e].(active := false) else s.endpoints[e]
  {
    hide Next;
    if a.CreateRequest? || a.ConfirmRequest? || a.RefundRequest? { RequestEndpoints(s, a); }
    else if a.RunPayment? || a.RunSoft? || a.RunRefund? || a.RunDelivery? { HandlerEndpoints(s, a); }
    else if QueueAction(a) { QueueFrame(s, a); }
    else { OuterEndpoints(s, a, e); }
  }

  lemma EndpointId(max: nat, run: seq<Action>, e: nat)
    requires max >= 1 && e in After(max, run).endpoints
    ensures e < After(max, run).next
  {
    Reached(max, run);
    hide Rows, QueueInv, LinkOk, BackoffOk, Known;
  }

  lemma {:induction false} EndpointKept(max: nat, run: seq<Action>, more: seq<Action>, e: nat)
    requires max >= 1 && e in After(max, run).endpoints
    ensures var s, t := After(max, run), After(max, run + more);
      e in t.endpoints && t.endpoints[e] ==
        if DeactivateEndpoint(e) in more then s.endpoints[e].(active := false) else s.endpoints[e]
    decreases |more|
  {
    hide Next;
    if more == [] {
      assert run + more == run;
    } else {
      var n := |more| - 1;
      assert run + more == run + more[..n] + [more[n]] && more == more[..n] + [more[n]];
      EndpointKept(max, run, more[..n], e);
      EndpointId(max, run + more[..n], e);
      OneMore(max, run + more[..n], more[n]);
      NextEndpoints(After(max, run + more[..n]), more[n], e);
    }
  }

  /** A registered endpoint belongs to its client for good, and is active exactly until it is deactivated. */
  lemma ActiveIff(max: nat, run: seq<Action>, client: string, more: seq<Action>)
    requires max >= 1
    ensures var e, t := After(max, run).next, After(max, run + [RegisterEndpoint(client)] + more);
      && e in t.endpoints && t.endpoints[e].client == client
      && (t.endpoints[e].active <==> DeactivateEndpoint(e) !in more)
  {
    var e := After(max, run).next;
    OneMore(max, run, RegisterEndpoint(client));
    assert e in After(max, run + [RegisterEndpoint(client)]).endpoints;
    EndpointKept(max, run + [RegisterEndpoint(client)], more, e);
  }

  // -------- a deactivated endpoint hears nothing more

  /** The endpoint's events are those it had, and no more POSTs of them have gone out. */
  ghost predicate Silent(s: State, t: State, p: nat) {
    forall e :: e in t.events && t.events[e].endpoint == p ==>
      e in s.events && s.events[e].endpoint == p && PostsOf(t, e) == PostsOf(s, e)
  }

  lemma SameIsSilent(s: State, t: State, p: nat)
    requires t.events == s.events && t.posts == s.posts
    ensures Silent(s, t, p)
  {}

  lemma SilentComposes(s: State, t: State, u: State, p: nat)
    requires Silent(s, t, p) && Silent(t, u, p)
    ensures Silent(s, u, p)
  {}

  lemma CompleteRunEvents(s: State, id: nat, ids: seq<nat>, cut: Cut)
    requires id in s.refunds
    ensures var t := CompleteRun(s, id, ids, cut);
      t.events == s.events || t.events == s.events + FanoutEvents(s.next, id, ids)
  {
    hide Enter, FanoutRows, FanoutTails, FanoutEvents, Insert;
  }

  /** The endpoint gets no new event. */
  ghost predicate NoNews(s: State, t: State, p: nat) {
    forall e :: e in t.events && t.events[e].endpoint == p ==> e in s.events && s.events[e].endpoint == p
  }

  lemma FanoutNews(events: map<nat, Event>, base: nat, id: nat, ids: seq<nat>, p: nat)
    requires forall i :: 0 <= i < |ids| ==> ids[i] != p
    ensures var es := events + FanoutEvents(base, id, ids);
      forall e :: e in es && es[e].endpoint == p ==> e in events && events[e].endpoint == p
  {
    EventsShape(base, id, ids);
    hide FanoutEvents;
  }

  lemma CompleteNews(s: State, id: nat, ids: seq<nat>, cut: Cut, p: nat)
    requires id in s.refunds && forall i :: 0 <= i < |ids| ==> ids[i] != p
    ensures NoNews(s, CompleteRun(s, id, ids, cut), p)
  {
    hide FanoutEvents, CompleteRun;
    CompleteRunEvents(s, id, ids, cut);
    FanoutNews(s.events, s.next, id, ids, p);
  }

  lemma ListenersAreActive(s: State, customer: string, ids: seq<nat>, p: nat)
    requires Audience(s, customer, ids) && p in s.endpoints && !s.endpoints[p].active
    ensures forall i :: 0 <= i < |ids| ==> ids[i] != p
  {
    forall i | 0 <= i < |ids| ensures ids[i] != p { assert Listening(s, customer, ids[i]); }
  }

  lemma NoEventsNoNews(s: State, t: State, p: nat)
    ensures t.events == s.events ==> NoNews(s, t, p)
  {}

  lemma RunNews(s: State, id: nat, draw: real, ids: seq<nat>, cut: Cut, p: nat)
    requires id in s.refunds && p in s.endpoints && !s.endpoints[p].active
    ensures NoNews(s, RefundRun(s, id, draw, ids, cut), p)
  {
    hide CompleteRun, Audience, NoNews;
    NoEventsNoNews(s, RefundRun(s, id, draw, ids, cut), p);
    if s.refunds[id].payment !in s.payments { CompleteNews(s, id, [], cut, p); }
    else if Audience(s, s.payments[s.refunds[id].payment].customer, ids) {
      ListenersAreActive(s, s.payments[s.refunds[id].payment].customer, ids, p);
      CompleteNews(s, id, ids, cut, p);
    }
  }

  lemma RefundNews(s: State, draw: real, ids: seq<nat>, cut: Cut, p: nat)
    requires p in s.endpoints && !s.endpoints[p].active
    ensures NoNews(s, RefundStep(s, draw, ids, cut), p)
  {
    hide RefundRun;
    match Current(s)
    case Some(ProcessRefund(id)) => if id in s.refunds { RunNews(s, id, draw, ids, cut, p); }
    case _ =>
  }

  lemma RefundSilent(s: State, a: Action, p: nat)
    requires Tidy(s) && a.RunRefund? && p in s.endpoints && !s.endpoints[p].active
    ensures Silent(s, Next(s, a), p)
  {
    RefundNews(s, a.draw, a.ids, a.cut, p);
    assert NoNews(s, Next(s, a), p);
    hide Next, Tidy, PostsOf;
    var t := Next(s, a);
    forall e | e in t.events && t.events[e].endpoint == p
      ensures e in s.events && s.events[e].endpoint == p && PostsOf(t, e) == PostsOf(s, e)
    {
      BystanderUntold(s, a, e);
    }
  }

  lemma OwnDelivery(s: State, id: nat, ok: bool, elapsed: real, jitter: real, cut: DeliveryCut)
    requires UnderWay(s.q.worker) && id in s.events
    ensures var t := DeliverRun(s, id, ok, elapsed, jitter, cut);
      && id in t.events && t.events[id].endpoint == s.events[id].endpoint
      && (!Deliverable(s, id) ==> t.posts == s.posts)
  {
    hide Record, Enters, PostsOf, Moves, Ends;
    if !Deliverable(s, id) {
      RecordFrame(s, id, Undeliverable(s.events[id], s.clock));
    } else if cut == CutAfterPost {
      EntersKeepsPosts(Sent(s, id, ok, elapsed, false), Raised(Aborted));
    } else {
      RecordFrame(Sent(s, id, ok, elapsed, true), id, AfterPost(s.events[id], ok, jitter, s.clock));
    }
  }

  lemma DeliverRunSilent(s: State, id: nat, ok: bool, elapsed: real, jitter: real, cut: DeliveryCut, p: nat)
    requires UnderWay(s.q.worker) && id in s.events && p in s.endpoints && !s.endpoints[p].active
    ensures Silent(s, DeliverRun(s, id, ok, elapsed, jitter, cut), p)
  {
    var t := DeliverRun(s, id, ok, elapsed, jitter, cut);
    OwnDelivery(s, id, ok, elapsed, jitter, cut);
    hide DeliverRun, PostsOf;
    forall e | e in t.events && t.events[e].endpoint == p
      ensures e in s.events && s.events[e].endpoint == p && PostsOf(t, e) == PostsOf(s, e)
    {
      if e == id { SamePosts(s, t, e); } else { DeliverRunOther(s, id, ok, elapsed, jitter, cut, e); }
    }
  }

  lemma DeliverSilent(s: State, ok: bool, elapsed: real, jitter: real, cut: DeliveryCut, p: nat)
    requires p in s.endpoints && !s.endpoints[p].active
    ensures Silent(s, DeliverStep(s, ok, elapsed, jitter, cut), p)
  {
    hide DeliverRun, Enters, Silent;
    SameIsSilent(s, s, p);
    match Current(s)
    case Some(DeliverWebhook(id)) =>
      EntersKeepsPosts(s, Raised(Aborted));
      EntersKeepsPosts(s, Returned);
      SameIsSilent(s, Enters(s, Raised(Aborted)), p);
      SameIsSilent(s, Enters(s, Returned), p);
      if id in s.events { DeliverRunSilent(s, id, ok, elapsed, jitter, cut, p); }
    case _ =>
  }

  lemma HandlerSilent(s: State, a: Action, p: nat)
    requires (a.RunPayment? || a.RunSoft? || a.RunDelivery?) && p in s.endpoints && !s.endpoints[p].active
    ensures Silent(s, Next(s, a), p)
  {
    hide PaymentStep, SoftStep, DeliverStep, Moves, Silent;
    SameIsSilent(s, s, p);
    match a
    case RunPayment(draw, fault) =>
      PaymentFrame(s, draw, fault);
      SameIsSilent(s, PaymentStep(s, draw, fault), p);
    case RunSoft(jitter, fault) =>
      SoftFrame(s, jitter, fault);
      SameIsSilent(s, SoftStep(s, jitter, fault), p);
    case RunDelivery(ok, elapsed, jitter, cut) => DeliverSilent(s, ok, elapsed, jitter, cut, p);
  }

  lemma RequestSilent(s: State, a: Action, p: nat)
    requires a.CreateRequest? || a.ConfirmRequest? || a.RefundRequest?
    ensures Silent(s, Next(s, a), p)
  {
    hide Create, Confirm, Initiate;
    match a
    case CreateRequest(customer, cents, metadata, key) => CreateFrame(s, customer, cents, metadata, key);
    case ConfirmRequest(id, metadata, draw, cut) => ConfirmFrame(s, id, metadata, Classify(draw, cut), Http);
    case RefundRequest(id, cents, key) => InitiateFrame(s, id, cents, key);
  }

  /** No step tells an inactive endpoint anything. */
  lemma NextSilent(s: State, a: Action, p: nat)
    requires Tidy(s) && p in s.endpoints && !s.endpoints[p].active
    ensures Silent(s, Next(s, a), p)
  {
    hide Next, Silent, Tidy;
    if a.CreateRequest? || a.ConfirmRequest? || a.RefundRequest? { RequestSilent(s, a, p); }
    else if a.RunRefund? { RefundSilent(s, a, p); }
    else if a.RunPayment? || a.RunSoft? || a.RunDelivery? { HandlerSilent(s, a, p); }
    else if QueueAction(a) { QueueFrame(s, a); SameIsSilent(s, Next(s, a), p); }
    else { OuterFrame(s, a); SameIsSilent(s, Next(s, a), p); }
  }

  /** Once an endpoint is inactive, no event is created for it and none of those it has is POSTed to
      it, however the run goes on. */
  lemma {:induction false} DeactivatedIsSilent(max: nat, run: seq<Action>, more: seq<Action>, p: nat)
    requires max >= 1 && p in After(max, run).endpoints && !After(max, run).endpoints[p].active
    ensures var s, t := After(max, run), After(max, run + more);
      forall e :: e in t.events && t.events[e].endpoint == p ==>
        e in s.events && s.events[e].endpoint == p && PostsOf(t, e) == PostsOf(s, e)
    decreases |more|
  {
    hide Next, Inv, Tidy, PostsOf;
    if more == [] {
      assert run + more == run;
    } else {
      var n := |more| - 1;
      var s, t := After(max, run), After(max, run + more[..n]);
      assert run + more == run + more[..n] + [more[n]];
      DeactivatedIsSilent(max, run, more[..n], p);
      EndpointKept(max, run, more[..n], p);
      Reached(max, run + more[..n]);
      TidyState(t);
      OneMore(max, run + more[..n], more[n]);
      NextSilent(t, more[n], p);
      SilentComposes(s, t, After(max, run + more), p);
    }
  }

  // ---------------------------------------------------------------- the worker and its queue

  /** An idle worker takes the first id on the dispatch queue. It starts the handler of a job that is
      queued; a completed or dead one costs nothing but the id. */
  lemma TakeMeans(max: nat, run: seq<Action>)
    requires max >= 1 && After(max, run).q.worker == Idle && After(max, run).q.dispatch != []
    ensures var s := After(max, run); var t, j := Next(s, TakeJob), s.q.dispatch[0];
      && t == s.(q := t.q) && t.q.tails == s.q.tails && t.q.dispatch == s.q.dispatch[1..]
      && j in s.q.jobs && s.q.jobs[j].status in {JobStatus.Queued, JobStatus.Completed, JobStatus.Dead}
      && (s.q.jobs[j].status == JobStatus.Queued ==>
            && t.q.worker == Busy(j, Started)
            && t.q.jobs == s.q.jobs[j := s.q.jobs[j].(status := JobStatus.Running)])
      && (s.q.jobs[j].status != JobStatus.Queued ==> t.q.worker == Idle && t.q.jobs == s.q.jobs)
  {
    var s := After(max, run);
    assert QueueInv(s.q, s.clock) by { hide Rows, IdsOk, LinkOk, BackoffOk; Reached(max, run); }
    hide After;
    assert Ripe(s.q, s.clock, s.q.dispatch[0]) && JobOk(s.q, s.clock, s.q.dispatch[0]);
  }

  /** The worker's bookkeeping: a handler that returned completes its job; one that raised counts
      against it, and the job runs again at once, twice at most, and is dead after the third failure. */
  lemma FinishMeans(max: nat, run: seq<Action>)
    requires max >= 1 && After(max, run).q.worker.Busy?
    ensures var s := After(max, run); var t, j := Next(s, FinishJob), s.q.worker.job;
      && t == s.(q := t.q) && j in s.q.jobs && j in t.q.jobs && t.q.dispatch == s.q.dispatch
      && s.q.jobs[j].status == Running
      && t.q.jobs == s.q.jobs[j := t.q.jobs[j]]
      && match s.q.worker.phase
         case Returned =>
           && t.q.worker == Idle && t.q.tails == s.q.tails
           && t.q.jobs[j] == s.q.jobs[j].(status := JobStatus.Completed, lastError := None)
         case Raised(error) =>
           var again := s.q.jobs[j].attempts < 2;
           && t.q.worker == Idle && t.q.tails == s.q.tails + (if again then [Tail(j, None)] else [])
           && t.q.jobs[j] == s.q.jobs[j].(attempts := s.q.jobs[j].attempts + 1, lastError := Some(error),
                status := if again then JobStatus.Queued else JobStatus.Dead,
                runAt := if again then s.clock else s.q.jobs[j].runAt)
         case _ => t == s
  {
    var s := After(max, run);
    assert IdsOk(s) && QueueInv(s.q, s.clock) by { hide Rows, LinkOk, BackoffOk; Reached(max, run); }
    hide After;
    assert JobOk(s.q, s.clock, s.q.worker.job);
  }

  /** An operator's retry gives a dead job a fresh start: queued for now, with its put to come and
      nothing held against it. */
  lemma RetryMeans(s: State, j: nat)
    requires j in s.q.jobs && s.q.jobs[j].status == JobStatus.Dead
    ensures var t := Next(s, OperatorRetry(j));
      && t == s.(q := t.q) && j in t.q.jobs && t.q.jobs == s.q.jobs[j := t.q.jobs[j]]
      && t.q.jobs[j] == s.q.jobs[j].(status := JobStatus.Queued, attempts := 0, lastError := None, runAt := s.clock)
      && t.q.tails == s.q.tails + [Tail(j, None)] && t.q.dispatch == s.q.dispatch && t.q.worker == s.q.worker
  {}

  /** A poll makes one put pending for every queued job whose time has come, and for no other. */
  lemma PollMeans(s: State, ids: seq<nat>)
    requires forall j :: j in ids <==>
      j in s.q.jobs && s.q.jobs[j].status == JobStatus.Queued && s.q.jobs[j].runAt <= s.clock
    requires forall i, k :: 0 <= i < k < |ids| ==> ids[i] != ids[k]
    ensures var t := Next(s, PollJobs(ids));
      && t == s.(q := s.q.(tails := t.q.tails)) && |t.q.tails| == |s.q.tails| + |ids| && s.q.tails <= t.q.tails
      && forall i :: |s.q.tails| <= i < |t.q.tails| ==> t.q.tails[i] == Tail(ids[i - |s.q.tails|], None)
  {
    forall i | 0 <= i < |ids| ensures Due(s.q, s.clock, ids[i]) { assert ids[i] in ids; }
    assert Selection(s.q, s.clock, ids);
  }
}
