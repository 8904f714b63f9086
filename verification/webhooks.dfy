/** Webhook events and their bounded redelivery (pulsepay/webhooks). */
module Webhooks {
  import opened Common

  datatype EventStatus = Queued | Delivered | Failed | Dead

  datatype Endpoint = Endpoint(client: string, active: bool)

  /** A committed row of the webhook_events table; its payload is the refund it reports. */
  datatype Event = Event(
    endpoint: nat, refund: nat, status: EventStatus, attempts: nat,
    lastAttemptAt: Option<real>, nextRetryAt: Option<real>)

  const MAX_DELIVERIES: nat := 5

  function NewEvent(endpoint: nat, refund: nat): Event {
    Event(endpoint, refund, Queued, 0, None, None)
  }

  predicate Open(e: Event) {
    e.status == Queued || e.status == Failed
  }

  /** The endpoint is inactive or gone. */
  function Undeliverable(e: Event, now: real): Event {
    e.(status := Dead, lastAttemptAt := Some(now), nextRetryAt := None)
  }

  /** The row after one recorded POST. */
  function AfterPost(e: Event, ok: bool, jitter: real, now: real): Event {
    var e1 := e.(attempts := e.attempts + 1, lastAttemptAt := Some(now));
    if ok then e1.(status := Delivered, nextRetryAt := None)
    else if e1.attempts >= MAX_DELIVERIES then e1.(status := Dead, nextRetryAt := None)
    else e1.(status := Failed, nextRetryAt := Some(now + (Pow2(e1.attempts) + jitter)))
  }

  // ---------------------------------------------------------------- the bound

  /** One POST on the wire: its result, whether the handler lived to commit it, and when it was sent. */
  datatype Post = Post(ok: bool, recorded: bool, at: real)

  /** The recorded POSTs, in order. */
  function Kept(posts: seq<Post>): seq<Post> {
    if posts == [] then []
    else Kept(posts[..|posts| - 1]) + (if posts[|posts| - 1].recorded then [posts[|posts| - 1]] else [])
  }

  lemma KeptSnoc(posts: seq<Post>, p: Post)
    ensures Kept(posts + [p]) == Kept(posts) + (if p.recorded then [p] else [])
  {
    assert (posts + [p])[..|posts|] == posts;
  }

  // -------- the spacing of POSTs

  /** The backoff after the last recorded one of `posts` is over. */
  ghost predicate Backed(posts: seq<Post>, at: real) {
    var kept := Kept(posts);
    kept != [] ==> at >= kept[|kept| - 1].at + Pow2(|kept|)
  }

  /** No POST, recorded or not, comes before the backoff after the recorded one before it is over. */
  ghost predicate WellSpaced(posts: seq<Post>) {
    forall k :: 0 <= k < |posts| ==> Backed(posts[..k], posts[k].at)
  }

  lemma WellSpacedSnoc(posts: seq<Post>, p: Post)
    requires WellSpaced(posts) && Backed(posts, p.at)
    ensures WellSpaced(posts + [p])
  {
    var longer := posts + [p];
    forall k | 0 <= k < |longer| ensures Backed(longer[..k], longer[k].at) {
      if k < |posts| { assert longer[..k] == posts[..k]; } else { assert longer[..k] == posts; }
    }
  }

  /** Recorded POST `k + 1`, counted from zero, comes two to the `k + 1` seconds after recorded POST `k`, or later. */
  lemma {:induction false} KeptAreSpaced(posts: seq<Post>, k: nat)
    requires WellSpaced(posts) && k + 1 < |Kept(posts)|
    ensures Kept(posts)[k + 1].at >= Kept(posts)[k].at + Pow2(k + 1)
    decreases |posts|
  {
    var n := |posts| - 1;
    var before := posts[..n];
    forall i | 0 <= i < |before| ensures Backed(before[..i], before[i].at) { assert before[..i] == posts[..i]; }
    if k + 1 < |Kept(before)| {
      KeptAreSpaced(before, k);
    } else {
      assert Backed(posts[..n], posts[n].at);
    }
  }

  /** How many POSTs a dying handler left unrecorded. */
  function Lost(posts: seq<Post>): nat {
    if posts == [] then 0 else Lost(posts[..|posts| - 1]) + (if posts[|posts| - 1].recorded then 0 else 1)
  }

  lemma {:induction false} PostsSplit(posts: seq<Post>)
    ensures |posts| == |Kept(posts)| + Lost(posts)
  {
    if posts != [] { PostsSplit(posts[..|posts| - 1]); }
  }

  lemma {:induction false} NoneLostIff(posts: seq<Post>)
    ensures Lost(posts) == 0 <==> forall i :: 0 <= i < |posts| ==> posts[i].recorded
  {
    if posts != [] { NoneLostIff(posts[..|posts| - 1]); }
  }

  /** The row is what its recorded POSTs make of it: only the last one may have succeeded, and
      five failures end it. */
  ghost predicate EventOk(e: Event, posts: seq<Post>) {
    var kept := Kept(posts);
    && e.attempts == |kept| <= MAX_DELIVERIES
    && (forall i :: 0 <= i < |kept| - 1 ==> !kept[i].ok)
    && (e.status == Delivered <==> kept != [] && kept[|kept| - 1].ok)
    && (e.status == Queued ==> kept == [])
    && (e.status == Failed ==> 1 <= |kept| < MAX_DELIVERIES)
    && (|kept| == MAX_DELIVERIES ==> e.status == Delivered || e.status == Dead)
    && (e.nextRetryAt.Some? <==> e.status == Failed)
    && (e.status == Failed ==> BacksOff(e))
    && (e.status != Dead && kept != [] ==> e.lastAttemptAt == Some(kept[|kept| - 1].at))
    && WellSpaced(posts)
    && (e.lastAttemptAt.Some? <==> kept != [] || e.status == Dead)
  }

  /** The next attempt waits two to the number of attempts made, and up to a second more. */
  ghost predicate BacksOff(e: Event) {
    && e.lastAttemptAt.Some? && e.nextRetryAt.Some?
    && Pow2(e.attempts) <= e.nextRetryAt.value - e.lastAttemptAt.value < Pow2(e.attempts) + 1.0
  }

  lemma RetryIsBacked(e: Event, posts: seq<Post>, at: real)
    requires EventOk(e, posts) && Open(e) && (e.nextRetryAt.Some? ==> at >= e.nextRetryAt.value)
    ensures Backed(posts, at)
  {
    hide WellSpaced;
  }

  lemma LostKeepsEvent(e: Event, posts: seq<Post>, p: Post)
    requires EventOk(e, posts) && !p.recorded && WellSpaced(posts + [p])
    ensures EventOk(e, posts + [p])
  {
    KeptSnoc(posts, p);
    hide WellSpaced, Kept;
  }

  lemma RecordedKeepsEvent(e: Event, posts: seq<Post>, p: Post, jitter: real)
    requires EventOk(e, posts) && Open(e) && 0.0 <= jitter < 1.0 && p.recorded && WellSpaced(posts + [p])
    ensures EventOk(AfterPost(e, p.ok, jitter, p.at), posts + [p])
  {
    KeptSnoc(posts, p);
    hide WellSpaced, Kept;
    var kept, r := Kept(posts), AfterPost(e, p.ok, jitter, p.at);
    assert Kept(posts + [p]) == kept + [p] && (kept + [p])[|kept|] == p;
    assert r.attempts == |kept| + 1 && r.lastAttemptAt == Some(p.at);
    assert forall i :: 0 <= i < |kept| ==> (kept + [p])[i] == kept[i] && !kept[i].ok;
    if p.ok {} else if r.attempts >= MAX_DELIVERIES {} else {}
  }

  /** A further POST, recorded or not, that does not come too early, keeps the row in step with its POSTs. */
  lemma PostKeepsEvent(e: Event, posts: seq<Post>, p: Post, jitter: real)
    requires EventOk(e, posts) && Open(e) && 0.0 <= jitter < 1.0
    requires e.nextRetryAt.Some? ==> p.at >= e.nextRetryAt.value
    ensures EventOk(if p.recorded then AfterPost(e, p.ok, jitter, p.at) else e, posts + [p])
  {
    assert WellSpaced(posts + [p]) by {
      RetryIsBacked(e, posts, p.at);
      WellSpacedSnoc(posts, p);
    }
    hide EventOk, AfterPost;
    if p.recorded { RecordedKeepsEvent(e, posts, p, jitter); } else { LostKeepsEvent(e, posts, p); }
  }
}
