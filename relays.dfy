/**
 * ActivityPub relays: the stored relay subscriptions, the Follow/Undo
 * activities sent when one is added or removed, and the fan-out of an
 * activity to every accepted relay through a ten-minute cache.
 */
module Relays {
  import opened Common
  import opened Queue

  datatype RelayStatus = Requesting | Accepted | Rejected

  datatype Relay = Relay(id: string, inbox: string, status: RelayStatus)

  /** How long a read of the accepted relays is reused, in milliseconds. */
  const RelaysCacheLifetime := 1000 * 60 * 10

  /** The public collection of section 5.6 of W3C ActivityPub. */
  const PublicCollection := "https://www.w3.org/ns/activitystreams#Public"

  /** The activity renderer, which is not part of this model: the Follow of a
      relay by the relay actor, its Undo, and the JSON-LD context wrapper. */
  datatype Renderer = Renderer(
    follow: (Relay, string) -> Json,
    undo: (Json, string) -> Json,
    addContext: Json -> Json)

  /** The key relays are looked up by in `removeRelay`. */
  function InboxKey(r: Relay): string
  {
    r.inbox
  }


  /** `update(id, { status })`: every row with that id gets the status, and
      no row changes its id or inbox or moves. */
  function SetStatus(relays: seq<Relay>, id: string, status: RelayStatus): (r: seq<Relay>)
    ensures |r| == |relays|
    ensures forall k :: 0 <= k < |r| ==> r[k].id == relays[k].id && r[k].inbox == relays[k].inbox
    ensures forall k :: 0 <= k < |r| && relays[k].id == id ==> r[k].status == status
    ensures forall k :: 0 <= k < |r| && relays[k].id != id ==> r[k] == relays[k]
  {
    seq(|relays|, k requires 0 <= k < |relays| => if relays[k].id == id then relays[k].(status := status) else relays[k])
  }

  /** `delete(id)`: the rows with another id, in order. */
  function DeleteById(relays: seq<Relay>, id: string): (r: seq<Relay>)
    ensures forall x :: x in r <==> x in relays && x.id != id
  {
    Filter(relays, (x: Relay) => x.id != id)
  }

  /** `findBy({ status: 'accepted' })`. */
  function AcceptedOf(relays: seq<Relay>): (r: seq<Relay>)
    ensures forall x :: x in r <==> x in relays && x.status == Accepted
  {
    Filter(relays, (x: Relay) => x.status == Accepted)
  }

  /** An accepted relay is delivered to from then on, a rejected one no
      longer, and the status of every other relay decides as before. */
  lemma StatusDecidesDelivery(relays: seq<Relay>, id: string, x: Relay)
    requires x in relays
    ensures x.id == id ==> x.(status := Accepted) in AcceptedOf(SetStatus(relays, id, Accepted))
    ensures x.id == id ==> forall y :: y in AcceptedOf(SetStatus(relays, id, Rejected)) ==> y.id != id
    ensures x.id != id ==> (x in AcceptedOf(SetStatus(relays, id, Accepted)) <==> x in AcceptedOf(relays))
  {
    var k :| 0 <= k < |relays| && relays[k] == x;
    var acc := SetStatus(relays, id, Accepted);
    var rej := SetStatus(relays, id, Rejected);
    assert acc[k] in acc;
    forall y | y in rej ensures y.status == Accepted ==> y.id != id {
      var j :| 0 <= j < |rej| && rej[j] == y;
    }
    if x.id != id {
      if x in acc && x.status == Accepted {
        var j :| 0 <= j < |acc| && acc[j] == x;
        assert relays[j] == x;
      }
    }
  }

  /** The deep copy that is delivered: `to` is set to the public collection
      when it is missing or falsy and left alone otherwise. Setting a property
      on a primitive throws, so only objects and arrays yield a payload; an
      array keeps its JSON value. */
  function WithAudience(copy: Json): (r: Option<Json>)
    ensures copy.JObj? ==> r.Some? && r.value.JObj?
    ensures copy.JObj? ==> forall k :: k in copy.fields && k != "to" ==> k in r.value.fields && r.value.fields[k] == copy.fields[k]
    ensures copy.JObj? ==> "to" in r.value.fields
    ensures copy.JObj? && Truthy(Field(copy, "to")) ==> r.value == copy
    ensures copy.JObj? && !Truthy(Field(copy, "to")) ==> r.value.fields["to"] == JArr([JStr(PublicCollection)])
    ensures !copy.JObj? && !copy.JArr? ==> r.None?
  {
    match copy
    case JObj(fields) =>
      if Truthy(Field(copy, "to")) then Some(copy)
      else Some(JObj(fields["to" := JArr([JStr(PublicCollection)])]))
    case JArr(_) => Some(copy)
    case _ => None
  }

  /** One deliver job per relay, to its inbox, all with the same payload and not as a shared inbox. */
  function RelayJobs(relays: seq<Relay>, actorId: string, signed: Json): (jobs: seq<Job>)
    ensures |jobs| == |relays|
    ensures forall k :: 0 <= k < |jobs| ==> jobs[k] == DeliverJob(actorId, signed, relays[k].inbox, false)
  {
    seq(|relays|, k requires 0 <= k < |relays| => DeliverJob(actorId, signed, relays[k].inbox, false))
  }

  /** Every accepted relay's inbox receives the signed activity, as many times
      as the relay is listed, and no other inbox receives anything. */
  lemma RelayJobsReachEveryInbox(relays: seq<Relay>, actorId: string, signed: Json, inbox: string)
    ensures DeliverJob(actorId, signed, inbox, false) in RelayJobs(relays, actorId, signed)
      <==> exists r :: r in relays && r.inbox == inbox
  {
    var jobs := RelayJobs(relays, actorId, signed);
    if exists r :: r in relays && r.inbox == inbox {
      var r :| r in relays && r.inbox == inbox;
      var k :| 0 <= k < |relays| && relays[k] == r;
      assert jobs[k] == DeliverJob(actorId, signed, inbox, false);
    }
    if DeliverJob(actorId, signed, inbox, false) in jobs {
      var k :| 0 <= k < |jobs| && jobs[k] == DeliverJob(actorId, signed, inbox, false);
      assert relays[k] in relays && relays[k].inbox == inbox;
    }
  }

  class RelayService {
    /** The stored relays. */
    var relays: seq<Relay>
    /** The cached accepted relays and when they were read. */
    var cached: Option<seq<Relay>>
    var cachedAt: int
    /** The id of the instance's relay actor. */
    const relayActor: string
    const renderer: Renderer
    const queue: QueueService

    ghost predicate Valid()
      reads this
    {
      cached.Some? ==> forall x :: x in cached.value ==> x.status == Accepted
    }

    constructor (relays: seq<Relay>, relayActor: string, renderer: Renderer, queue: QueueService)
      ensures Valid()
      ensures this.relays == relays && cached.None?
      ensures this.relayActor == relayActor && this.renderer == renderer && this.queue == queue
    {
      this.relays := relays;
      cached := None;
      cachedAt := 0;
      this.relayActor := relayActor;
      this.renderer := renderer;
      this.queue := queue;
    }

    /** Stores a relay in state `requesting` under the freshly generated `id`
        and sends a Follow from the relay actor to its inbox. */
    method AddRelay(inbox: string, id: string) returns (relay: Relay)
      requires Valid()
      modifies this`relays, queue
      ensures Valid()
      ensures relay == Relay(id, inbox, Requesting)
      ensures relays == old(relays) + [relay]
      ensures queue.jobs == old(queue.jobs)
        + [DeliverJob(relayActor, renderer.addContext(renderer.follow(relay, relayActor)), inbox, false)]
    {
      relay := Relay(id, inbox, Requesting);
      relays := relays + [relay];
      var follow := renderer.follow(relay, relayActor);
      var activity := renderer.addContext(follow);
      queue.Deliver(relayActor, activity, relay.inbox, false);
    }

    /** Sends an Undo of the Follow to the relay's inbox and deletes it;
        fails with `relay not found` for an unknown inbox. */
    method RemoveRelay(inbox: string) returns (error: Option<string>)
      requires Valid()
      modifies this`relays, queue
      ensures Valid()
      ensures var found := FindByKey(old(relays), InboxKey, inbox);
        && (found.None? ==> error == Some("relay not found") && relays == old(relays) && queue.jobs == old(queue.jobs))
        && (found.Some? ==>
          && error.None?
          && relays == DeleteById(old(relays), found.value.id)
          && queue.jobs == old(queue.jobs)
            + [DeliverJob(relayActor, renderer.addContext(renderer.undo(renderer.follow(found.value, relayActor), relayActor)), inbox, false)])
    {
      var relay := FindByKey(relays, InboxKey, inbox);
      if relay.None? {
        return Some("relay not found");
      }
      var follow := renderer.follow(relay.value, relayActor);
      var undo := renderer.undo(follow, relayActor);
      var activity := renderer.addContext(undo);
      queue.Deliver(relayActor, activity, relay.value.inbox, false);
      relays := DeleteById(relays, relay.value.id);
      error := None;
    }

    /** `listRelay`: every stored relay, whatever its state. */
    method ListRelays() returns (r: seq<Relay>)
      ensures r == relays
    {
      r := relays;
    }

    method RelayAccepted(id: string)
      requires Valid()
      modifies this`relays
      ensures Valid()
      ensures relays == SetStatus(old(relays), id, Accepted)
    {
      relays := SetStatus(relays, id, Accepted);
    }

    method RelayRejected(id: string)
      requires Valid()
      modifies this`relays
      ensures Valid()
      ensures relays == SetStatus(old(relays), id, Rejected)
    {
      relays := SetStatus(relays, id, Rejected);
    }

    /** The accepted relays, read again only when the cached read is missing
        or at least ten minutes old at time `now`. */
    method GetAcceptedRelays(now: int) returns (r: seq<Relay>)
      requires Valid()
      modifies this`cached, this`cachedAt
      ensures Valid()
      ensures forall x :: x in r ==> x.status == Accepted
      ensures old(cached).Some? && now - old(cachedAt) < RelaysCacheLifetime ==>
        r == old(cached).value && cached == old(cached) && cachedAt == old(cachedAt)
      ensures old(cached).None? || now - old(cachedAt) >= RelaysCacheLifetime ==>
        r == AcceptedOf(relays) && cached == Some(r) && cachedAt == now
    {
      if cached.Some? && now - cachedAt < RelaysCacheLifetime {
        return cached.value;
      }
      r := AcceptedOf(relays);
      cached := Some(r);
      cachedAt := now;
    }

    /** Delivers `activity` (None for `undefined`) by `userId` to every
        accepted relay, signed by `sign`, which is not part of this model. */
    method DeliverToRelays(userId: string, activity: Option<Json>, now: int, sign: (Json, string) -> Json)
      requires Valid()
      modifies this`cached, this`cachedAt, queue
      ensures Valid()
      ensures relays == old(relays)
      ensures activity.None? || activity == Some(JNull) ==>
        queue.jobs == old(queue.jobs) && cached == old(cached) && cachedAt == old(cachedAt)
      ensures activity.Some? && activity.value != JNull ==>
        if old(cached).Some? && now - old(cachedAt) < RelaysCacheLifetime
        then cached == old(cached) && cachedAt == old(cachedAt)
        else cached == Some(AcceptedOf(relays)) && cachedAt == now
      ensures activity.Some? && activity.value != JNull ==>
        var accepted := if old(cached).Some? && now - old(cachedAt) < RelaysCacheLifetime then old(cached).value else AcceptedOf(relays);
        var copy := WithAudience(activity.value);
        queue.jobs == old(queue.jobs)
          + (if accepted == [] || copy.None? then [] else RelayJobs(accepted, userId, sign(copy.value, userId)))
    {
      if activity.None? || activity.value == JNull {
        return;
      }
      var accepted := GetAcceptedRelays(now);
      if |accepted| == 0 {
        return;
      }
      var copy := WithAudience(activity.value);
      if copy.None? {
        return;
      }
      var signed := sign(copy.value, userId);
      EnqueueRelayDeliveries(accepted, userId, signed, queue);
    }
  }

  /** The loop of `deliverToRelays`: one deliver call per relay, in order. */
  method EnqueueRelayDeliveries(relays: seq<Relay>, userId: string, signed: Json, queue: QueueService)
    modifies queue
    ensures queue.jobs == old(queue.jobs) + RelayJobs(relays, userId, signed)
  {
    for i := 0 to |relays|
      invariant queue.jobs == old(queue.jobs) + RelayJobs(relays[..i], userId, signed)
    {
      assert RelayJobs(relays[..i + 1], userId, signed) == RelayJobs(relays[..i], userId, signed) + [DeliverJob(userId, signed, relays[i].inbox, false)];
      queue.Deliver(userId, signed, relays[i].inbox, false);
    }
    assert relays[..|relays|] == relays;
  }
}
