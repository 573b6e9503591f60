/**
 * Webhook and relay records and the job queue they are delivered through.
 * The queue is an append-only log of the jobs handed to it; what the job
 * store does with them afterwards is not part of this model.
 */
module Queue {
  import opened Common
  import opened Packed

  /** A system webhook (`MiSystemWebhook`). */
  datatype SystemWebhook = SystemWebhook(
    id: string,
    isActive: bool,
    name: string,
    on: seq<string>,
    url: string,
    secret: string)

  /** A user webhook (`MiWebhook`). */
  datatype UserWebhook = UserWebhook(
    id: string,
    userId: string,
    name: string,
    on: seq<string>,
    url: string,
    secret: string,
    active: bool)

  datatype Job =
    | SystemWebhookJob(systemWebhook: SystemWebhook, eventType: string, systemContent: SystemWebhookPayload, attempts: Option<nat>)
    | UserWebhookJob(userWebhook: UserWebhook, eventType: string, userContent: UserWebhookPayload, attempts: Option<nat>)
    | DeliverJob(actorId: string, activity: Json, inbox: string, isSharedInbox: bool)

  class QueueService {
    var jobs: seq<Job>

    constructor ()
      ensures jobs == []
    {
      jobs := [];
    }

    method SystemWebhookDeliver(webhook: SystemWebhook, eventType: string, content: SystemWebhookPayload, attempts: Option<nat>)
      modifies this
      ensures jobs == old(jobs) + [SystemWebhookJob(webhook, eventType, content, attempts)]
    {
      jobs := jobs + [SystemWebhookJob(webhook, eventType, content, attempts)];
    }

    method UserWebhookDeliver(webhook: UserWebhook, eventType: string, content: UserWebhookPayload, attempts: Option<nat>)
      modifies this
      ensures jobs == old(jobs) + [UserWebhookJob(webhook, eventType, content, attempts)]
    {
      jobs := jobs + [UserWebhookJob(webhook, eventType, content, attempts)];
    }

    method Deliver(actorId: string, activity: Json, inbox: string, isSharedInbox: bool)
      modifies this
      ensures jobs == old(jobs) + [DeliverJob(actorId, activity, inbox, isSharedInbox)]
    {
      jobs := jobs + [DeliverJob(actorId, activity, inbox, isSharedInbox)];
    }
  }
}
