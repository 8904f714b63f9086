/** What endpoints may rely on about deliveries, in every run. */
module WebhookTheorems {
  import opened Common
  import opened Payments
  import opened Jobs
  import opened Refunds
  import opened Webhooks
  import opened System
  import opened Invariants
  import opened Runs

  lemma RowFacts(max: nat, run: seq<Action>, e: nat)
    requires max >= 1 && e in After(max, run).events
    ensures var s := After(max, run); e in s.posts && EventRowOk(s.events[e], s.posts[e], s.refunds, s.endpoints)
  {
    Reached(max, run);
  }

  /** Every event is POSTed at most five times on the record, its row counts exactly those POSTs,
      only the last one of a delivered event succeeded, and five of them end it. */
  lemma AtMostFivePosts(max: nat, run: seq<Action>, e: nat)
    requires max >= 1 && e in After(max, run).events
    ensures var s := After(max, run); var row := s.events[e]; var posts := PostsOf(s, e); var kept := Kept(posts);
      && row.attempts == |kept| <= 5
      && |posts| == row.attempts + Lost(posts)
      && (forall i :: 0 <= i < |kept| - 1 ==> !kept[i].ok)
      && (row.status == Delivered <==> kept != [] && kept[|kept| - 1].ok)
      && (|kept| == 5 ==> !Webhooks.Open(row))
  {
    RowFacts(max, run, e);
    PostsSplit(After(max, run).posts[e]);
  }

  /** The count in the row is the number of POSTs on the wire exactly when no handler died between
      a POST and its commit. */
  lemma CountIsExactIff(max: nat, run: seq<Action>, e: nat)
    requires max >= 1 && e in After(max, run).events
    ensures var posts := PostsOf(After(max, run), e);
      After(max, run).events[e].attempts == |posts| <==> forall i :: 0 <= i < |posts| ==> posts[i].recorded
  {
    RowFacts(max, run, e);
    PostsSplit(After(max, run).posts[e]);
    NoneLostIff(After(max, run).posts[e]);
  }

  /** A retry time stands in the row exactly while the event waits for its next attempt; it lies two
      to the number of recorded POSTs, and up to a second more, after the last of them was sent. A
      dead event that was POSTed less than five times has lost its endpoint. */
  lemma RowExplainsItself(max: nat, run: seq<Action>, e: nat)
    requires max >= 1 && e in After(max, run).events
    ensures var s := After(max, run); var row := s.events[e]; var kept := Kept(PostsOf(s, e));
      && (row.nextRetryAt.Some? <==> row.status == EventStatus.Failed)
      && (row.status != EventStatus.Dead && kept != [] ==> row.lastAttemptAt == Some(kept[|kept| - 1].at))
      && (row.status == EventStatus.Failed ==>
          && kept != []
          && var t := kept[|kept| - 1].at; t + Pow2(|kept|) <= row.nextRetryAt.value < t + Pow2(|kept|) + 1.0)
      && (row.lastAttemptAt.Some? <==> row.attempts > 0 || row.status == EventStatus.Dead)
      && (row.status == EventStatus.Dead && row.attempts < 5 ==>
          row.endpoint !in s.endpoints || !s.endpoints[row.endpoint].active)
      && IsReported(s, row)
  {
    RowFacts(max, run, e);
  }

  /** Whatever dies, restarts or is retried, recorded POST `k + 1` of an event, counted from zero, is
      sent at least two to the `k + 1` seconds after recorded POST `k`. */
  lemma PostsBackOff(max: nat, run: seq<Action>, e: nat, k: nat)
    requires max >= 1 && e in After(max, run).events && k + 1 < |Kept(PostsOf(After(max, run), e))|
    ensures var kept := Kept(PostsOf(After(max, run), e)); kept[k + 1].at >= kept[k].at + Pow2(k + 1)
  {
    RowFacts(max, run, e);
    KeptAreSpaced(After(max, run).posts[e], k);
  }

  /** ... and no POST at all, recorded or not, is sent before the backoff after the last recorded one
      before it is over. */
  lemma EveryPostWaits(max: nat, run: seq<Action>, e: nat, k: nat)
    requires max >= 1 && e in After(max, run).events && k < |PostsOf(After(max, run), e)|
    ensures var posts := PostsOf(After(max, run), e);
      var before := Kept(posts[..k]);
      before != [] ==> posts[k].at >= before[|before| - 1].at + Pow2(|before|)
  {
    RowFacts(max, run, e);
    assert Backed(After(max, run).posts[e][..k], After(max, run).posts[e][k].at);
  }

  /** The event's refund is completed. */
  ghost predicate IsReported(s: State, row: Event) {
    row.refund in s.refunds && s.refunds[row.refund].status == RefundStatus.Completed
  }

  /** A failed event's one outstanding job may not start before the retry time in the row. */
  lemma RetryWaits(max: nat, run: seq<Action>, e: nat)
    requires max >= 1 && e in After(max, run).events && After(max, run).events[e].status == EventStatus.Failed
    ensures var s := After(max, run);
      && s.events[e].nextRetryAt.Some?
      && exists j :: Carries(s.q, j, EventTarget(e)) && s.q.jobs[j].runAt >= s.events[e].nextRetryAt.value
                     && forall k :: Carries(s.q, k, EventTarget(e)) ==> k == j
  {
    var s := After(max, run);
    RowFacts(max, run, e);
    assert LinkOk(s) by { Reached(max, run); }
    assert IsOpen(s, EventTarget(e));
    var j :| Carries(s.q, j, EventTarget(e));
    assert DeliveryOk(s, j, e);
  }

  /** A delivery handler that starts finds its event still to be delivered, and its retry time past. */
  lemma DeliversInTime(max: nat, run: seq<Action>, e: nat)
    requires max >= 1 && Current(After(max, run)) == Some(DeliverWebhook(e)) && e in After(max, run).events
    ensures var s := After(max, run);
      && Webhooks.Open(s.events[e])
      && (s.events[e].nextRetryAt.Some? ==> s.events[e].nextRetryAt.value <= s.clock)
  {
    var s := After(max, run);
    var j := s.q.worker.job;
    assert QueueInv(s.q, s.clock) && LinkOk(s) by { Reached(max, run); }
    assert JobOk(s.q, s.clock, j);
    assert Carries(s.q, j, EventTarget(e));
    assert DeliveryOk(s, j, e);
  }
}
