/**
 * The process-local list of active system webhooks: read from the repository
 * once, then kept up to date by the created/updated/deleted notices other
 * processes publish on the `internal` channel, and used to fan an event out
 * to every webhook subscribed to it.
 */
module SystemWebhooks {
  import opened Common
  import opened Packed
  import opened Queue

  /** A message from the pub/sub subscription: its channel, the notice type and the webhook it carries. */
  datatype InternalMessage = InternalMessage(channel: string, noticeType: NoticeType, body: SystemWebhook)

  /** The `type` of an internal event; every other internal event type is `OtherNotice`. */
  datatype NoticeType = SystemWebhookCreated | SystemWebhookUpdated | SystemWebhookDeleted | OtherNotice(name: string)

  /** The key the list of active webhooks is searched by. */
  function WebhookKey(w: SystemWebhook): string
  {
    w.id
  }

  /** `list.filter(a => a.id !== id)`. */
  function WithoutId(list: seq<SystemWebhook>, id: string): (r: seq<SystemWebhook>)
    ensures forall w :: w in r <==> w in list && w.id != id
  {
    Filter(list, (w: SystemWebhook) => w.id != id)
  }

  /** Replaces the first entry with the webhook's id, or appends the webhook. */
  function Upsert(list: seq<SystemWebhook>, w: SystemWebhook): (r: seq<SystemWebhook>)
    ensures w in r
    ensures forall x :: x in r ==> x == w || x in list
    ensures IndexOfKey(list, WebhookKey, w.id) == -1 ==> r == list + [w]
    ensures IndexOfKey(list, WebhookKey, w.id) >= 0 ==>
      && |r| == |list| && r[IndexOfKey(list, WebhookKey, w.id)] == w
      && forall k :: 0 <= k < |list| && k != IndexOfKey(list, WebhookKey, w.id) ==> r[k] == list[k]
  {
    var i := IndexOfKey(list, WebhookKey, w.id);
    if i > -1 then
      assert list[i := w][i] == w;
      list[i := w]
    else
      list + [w]
  }

  /** The list after one message: it only ever gains the notice's webhook,
      and only when that webhook is active. */
  function ApplyNotice(list: seq<SystemWebhook>, m: InternalMessage): (r: seq<SystemWebhook>)
    ensures forall x :: x in r ==> x in list || (x == m.body && m.body.isActive)
    ensures |r| <= |list| + 1
  {
    if m.channel != "internal" then list
    else
      match m.noticeType
      case SystemWebhookCreated =>
        if m.body.isActive then list + [m.body] else list
      case SystemWebhookUpdated =>
        if m.body.isActive then Upsert(list, m.body) else WithoutId(list, m.body.id)
      case SystemWebhookDeleted =>
        WithoutId(list, m.body.id)
      case OtherNotice(_) => list
  }

  function ApplyAll(list: seq<SystemWebhook>, ms: seq<InternalMessage>): seq<SystemWebhook>
    decreases |ms|
  {
    if ms == [] then list else ApplyAll(ApplyNotice(list, ms[0]), ms[1..])
  }

  predicate AllActive(list: seq<SystemWebhook>)
  {
    forall w :: w in list ==> w.isActive
  }

  /** Messages on other channels and notices of other types leave the list as it is. */
  lemma IgnoredNotices(list: seq<SystemWebhook>, m: InternalMessage)
    requires m.channel != "internal" || m.noticeType.OtherNotice?
    ensures ApplyNotice(list, m) == list
  {
  }

  /** After a delete notice, or an update notice that deactivates, no entry
      with that id is left; the other entries stay, in their order. */
  lemma RemovalNotices(a: seq<SystemWebhook>, b: seq<SystemWebhook>, m: InternalMessage)
    requires m.channel == "internal"
    requires m.noticeType == SystemWebhookDeleted || (m.noticeType == SystemWebhookUpdated && !m.body.isActive)
    ensures forall w :: w in ApplyNotice(a, m) <==> w in a && w.id != m.body.id
    ensures ApplyNotice(a + b, m) == ApplyNotice(a, m) + ApplyNotice(b, m)
  {
    FilterAppend(a, b, (w: SystemWebhook) => w.id != m.body.id);
  }

  /** A created notice appends the webhook exactly when it is active, whether
      or not an entry with its id is already there. */
  lemma CreatedNotice(list: seq<SystemWebhook>, m: InternalMessage)
    requires m.channel == "internal" && m.noticeType == SystemWebhookCreated
    ensures ApplyNotice(list, m) == if m.body.isActive then list + [m.body] else list
  {
  }

  /** Every notice keeps the list to active webhooks only. */
  lemma {:induction false} NoticesKeepActive(list: seq<SystemWebhook>, ms: seq<InternalMessage>)
    requires AllActive(list)
    ensures AllActive(ApplyAll(list, ms))
    decreases |ms|
  {
    if ms != [] {
      var m := ms[0];
      var next := ApplyNotice(list, m);
      if m.channel == "internal" && m.noticeType == SystemWebhookUpdated && m.body.isActive {
        assert forall x :: x in next ==> x == m.body || x in list;
      }
      assert AllActive(next);
      NoticesKeepActive(next, ms[1..]);
    }
  }

  /** An update of an active webhook keeps the ids in the list distinct. */
  lemma UpdateKeepsIdsDistinct(list: seq<SystemWebhook>, w: SystemWebhook)
    requires forall i, j :: 0 <= i < j < |list| ==> list[i].id != list[j].id
    ensures var r := Upsert(list, w); forall i, j :: 0 <= i < j < |r| ==> r[i].id != r[j].id
  {
    var r := Upsert(list, w);
    var k := IndexOfKey(list, WebhookKey, w.id);
    if k >= 0 {
      forall i, j | 0 <= i < j < |r| ensures r[i].id != r[j].id {
        if i == k {
          assert r[i] == w && r[j] == list[j] && list[k].id == w.id;
        } else if j == k {
          assert r[j] == w && r[i] == list[i] && list[k].id == w.id;
        }
      }
    }
  }

  /** Notices do not commute: a delete overtaken by the create of the same
      webhook leaves it in the list, the other order leaves it out. */
  lemma NoticeOrderMatters(w: SystemWebhook)
    requires w.isActive
    ensures var created := InternalMessage("internal", SystemWebhookCreated, w);
      var deleted := InternalMessage("internal", SystemWebhookDeleted, w);
      ApplyAll([], [created, deleted]) == [] && ApplyAll([], [deleted, created]) == [w]
  {
    var created := InternalMessage("internal", SystemWebhookCreated, w);
    var deleted := InternalMessage("internal", SystemWebhookDeleted, w);
    assert [w][1..] == [];
    assert ApplyNotice([], created) == [w];
    assert ApplyNotice([w], deleted) == [];
    assert ApplyNotice([], deleted) == [];
    assert ApplyAll([w], [created]) == [w, w] by {
      assert ApplyAll([w], [created]) == ApplyAll([w, w], []);
    }
    assert ApplyAll([], [created, deleted]) == ApplyAll([w], [deleted]) by {
      assert [created, deleted][1..] == [deleted];
    }
    assert ApplyAll([w], [deleted]) == ApplyAll([], []);
    assert ApplyAll([], [deleted, created]) == ApplyAll([], [created]) by {
      assert [deleted, created][1..] == [created];
    }
    assert ApplyAll([], [created]) == ApplyAll([w], []);
  }

  /** Two created notices for the same webhook list it twice, so every event
      it subscribes to is then delivered to it twice. */
  lemma CreatedTwiceDeliversTwice(w: SystemWebhook, eventType: string, content: SystemWebhookPayload)
    requires w.isActive && eventType in w.on
    ensures var created := InternalMessage("internal", SystemWebhookCreated, w);
      var list := ApplyAll([], [created, created]);
      var job := SystemWebhookJob(w, eventType, content, None);
      list == [w, w] && DeliveryJobs(list, eventType, content, None) == [job, job]
  {
    var created := InternalMessage("internal", SystemWebhookCreated, w);
    var job := SystemWebhookJob(w, eventType, content, None);
    assert ApplyNotice([], created) == [w];
    assert ApplyNotice([w], created) == [w, w];
    assert ApplyAll([], [created, created]) == ApplyAll([w], [created]) by {
      assert [created, created][1..] == [created];
    }
    assert ApplyAll([w], [created]) == ApplyAll([w, w], []);
    assert [w, w][1..] == [w];
    assert [w][1..] == [];
    assert DeliveryJobs([w], eventType, content, None) == [job];
  }

  /** `!opts?.excludes?.includes(webhook.id) && webhook.on.includes(type)`. */
  predicate Selected(w: SystemWebhook, eventType: string, excludes: Option<seq<string>>)
    ensures excludes.None? ==> (Selected(w, eventType, excludes) <==> eventType in w.on)
    ensures excludes.Some? && w.id in excludes.value ==> !Selected(w, eventType, excludes)
  {
    !(excludes.Some? && w.id in excludes.value) && eventType in w.on
  }

  /** The jobs `enqueueSystemWebhook` hands to the queue, in list order. */
  function DeliveryJobs(list: seq<SystemWebhook>, eventType: string, content: SystemWebhookPayload, excludes: Option<seq<string>>): (jobs: seq<Job>)
    ensures |jobs| <= |list|
    ensures forall k :: 0 <= k < |jobs| ==>
      && jobs[k].SystemWebhookJob? && Selected(jobs[k].systemWebhook, eventType, excludes)
      && jobs[k].eventType == eventType && jobs[k].systemContent == content && jobs[k].attempts == None
  {
    if list == [] then []
    else DeliveryJob(list[0], eventType, content, excludes) + DeliveryJobs(list[1..], eventType, content, excludes)
  }

  /** The job for one webhook: none unless it is selected. */
  function DeliveryJob(w: SystemWebhook, eventType: string, content: SystemWebhookPayload, excludes: Option<seq<string>>): seq<Job>
  {
    if Selected(w, eventType, excludes) then [SystemWebhookJob(w, eventType, content, None)] else []
  }

  lemma {:induction false} DeliveryJobsAppend(a: seq<SystemWebhook>, b: seq<SystemWebhook>, eventType: string, content: SystemWebhookPayload, excludes: Option<seq<string>>)
    ensures DeliveryJobs(a + b, eventType, content, excludes) == DeliveryJobs(a, eventType, content, excludes) + DeliveryJobs(b, eventType, content, excludes)
  {
    if a == [] {
      assert a + b == b;
    } else {
      assert (a + b)[0] == a[0];
      assert (a + b)[1..] == a[1..] + b;
      DeliveryJobsAppend(a[1..], b, eventType, content, excludes);
    }
  }

  lemma DeliveryJobsSnoc(webhooks: seq<SystemWebhook>, i: nat, eventType: string, content: SystemWebhookPayload, excludes: Option<seq<string>>)
    requires i < |webhooks|
    ensures DeliveryJobs(webhooks[..i + 1], eventType, content, excludes)
      == DeliveryJobs(webhooks[..i], eventType, content, excludes) + DeliveryJob(webhooks[i], eventType, content, excludes)
  {
    DeliveryJobsAppend(webhooks[..i], [webhooks[i]], eventType, content, excludes);
    DeliveryJobsSingle(webhooks[i], eventType, content, excludes);
    assert webhooks[..i + 1] == webhooks[..i] + [webhooks[i]];
  }

  lemma DeliveryJobsSingle(w: SystemWebhook, eventType: string, content: SystemWebhookPayload, excludes: Option<seq<string>>)
    ensures DeliveryJobs([w], eventType, content, excludes)
      == if Selected(w, eventType, excludes) then [SystemWebhookJob(w, eventType, content, None)] else []
  {
    assert [w][1..] == [];
  }

  /** Exactly one delivery per listed selected webhook: a webhook gets as many
      jobs as it has entries when selected, and none otherwise. */
  lemma {:induction false} DeliveryJobsCount(list: seq<SystemWebhook>, eventType: string, content: SystemWebhookPayload, excludes: Option<seq<string>>, w: SystemWebhook)
    ensures multiset(DeliveryJobs(list, eventType, content, excludes))[SystemWebhookJob(w, eventType, content, None)]
      == if Selected(w, eventType, excludes) then multiset(list)[w] else 0
  {
    if list != [] {
      var job := SystemWebhookJob(w, eventType, content, None);
      var head := DeliveryJob(list[0], eventType, content, excludes);
      var rest := DeliveryJobs(list[1..], eventType, content, excludes);
      DeliveryJobsCount(list[1..], eventType, content, excludes, w);
      assert DeliveryJobs(list, eventType, content, excludes) == head + rest;
      assert multiset(head)[job] == if list[0] == w && Selected(w, eventType, excludes) then 1 else 0;
      assert list == [list[0]] + list[1..];
      assert multiset(list)[w] == multiset([list[0]])[w] + multiset(list[1..])[w];
    }
  }

  /** One `systemWebhookDeliver` call per selected webhook, in list order. */
  method EnqueueDeliveries(webhooks: seq<SystemWebhook>, eventType: string, content: SystemWebhookPayload, excludes: Option<seq<string>>, queue: QueueService)
    modifies queue
    ensures queue.jobs == old(queue.jobs) + DeliveryJobs(webhooks, eventType, content, excludes)
  {
    for i := 0 to |webhooks|
      invariant queue.jobs == old(queue.jobs) + DeliveryJobs(webhooks[..i], eventType, content, excludes)
    {
      DeliveryJobsSnoc(webhooks, i, eventType, content, excludes);
      if Selected(webhooks[i], eventType, excludes) {
        queue.SystemWebhookDeliver(webhooks[i], eventType, content, None);
      }
    }
    assert webhooks[..|webhooks|] == webhooks;
  }

  class SystemWebhookService {
    var fetched: bool
    var activeSystemWebhooks: seq<SystemWebhook>
    /** Whether the message listener is attached to the subscription. */
    ghost var listening: bool
    /** How many times the repository was read. */
    ghost var repositoryReads: nat

    ghost predicate Valid()
      reads this
    {
      AllActive(activeSystemWebhooks)
    }

    constructor ()
      ensures Valid() && listening && !fetched && activeSystemWebhooks == [] && repositoryReads == 0
    {
      fetched := false;
      activeSystemWebhooks := [];
      listening := true;
      repositoryReads := 0;
    }

    /** `repository` is the stored webhooks; only the first call reads it. */
    method FetchActiveSystemWebhooks(repository: seq<SystemWebhook>) returns (r: seq<SystemWebhook>)
      requires Valid()
      modifies this`fetched, this`activeSystemWebhooks, this`repositoryReads
      ensures Valid() && fetched
      ensures !old(fetched) ==>
        activeSystemWebhooks == Filter(repository, (w: SystemWebhook) => w.isActive) && repositoryReads == old(repositoryReads) + 1
      ensures old(fetched) ==>
        activeSystemWebhooks == old(activeSystemWebhooks) && repositoryReads == old(repositoryReads)
      ensures r == activeSystemWebhooks
    {
      if !fetched {
        activeSystemWebhooks := Filter(repository, (w: SystemWebhook) => w.isActive);
        repositoryReads := repositoryReads + 1;
        fetched := true;
      }
      r := activeSystemWebhooks;
    }

    method OnMessage(m: InternalMessage)
      requires Valid()
      modifies this`activeSystemWebhooks
      ensures Valid()
      ensures activeSystemWebhooks == ApplyNotice(old(activeSystemWebhooks), m)
    {
      if m.channel != "internal" {
        return;
      }
      var body := m.body;
      match m.noticeType
      case SystemWebhookCreated =>
        if body.isActive {
          activeSystemWebhooks := activeSystemWebhooks + [body];
        }
      case SystemWebhookUpdated =>
        if body.isActive {
          var i := IndexOfKey(activeSystemWebhooks, WebhookKey, body.id);
          if i > -1 {
            activeSystemWebhooks := activeSystemWebhooks[i := body];
          } else {
            activeSystemWebhooks := activeSystemWebhooks + [body];
          }
        } else {
          activeSystemWebhooks := WithoutId(activeSystemWebhooks, body.id);
        }
      case SystemWebhookDeleted =>
        activeSystemWebhooks := WithoutId(activeSystemWebhooks, body.id);
      case OtherNotice(_) =>
    }

    method EnqueueSystemWebhook(eventType: string, content: SystemWebhookPayload, excludes: Option<seq<string>>, repository: seq<SystemWebhook>, queue: QueueService)
      requires Valid()
      modifies this`fetched, this`activeSystemWebhooks, this`repositoryReads, queue
      ensures Valid() && fetched
      ensures queue.jobs == old(queue.jobs) + DeliveryJobs(activeSystemWebhooks, eventType, content, excludes)
      ensures !old(fetched) ==>
        activeSystemWebhooks == Filter(repository, (w: SystemWebhook) => w.isActive) && repositoryReads == old(repositoryReads) + 1
      ensures old(fetched) ==>
        activeSystemWebhooks == old(activeSystemWebhooks) && repositoryReads == old(repositoryReads)
    {
      var webhooks := FetchActiveSystemWebhooks(repository);
      EnqueueDeliveries(webhooks, eventType, content, excludes, queue);
    }

    method Dispose()
      modifies this`listening
      ensures !listening
    {
      listening := false;
    }
  }
}
