/**
 * The two job-status reports sent to the remote service when a monitored
 * job ends (notify_server_success, notify_server_failed): where they go,
 * what they carry, and when a report that did not get through is handed
 * to the outbox for a later retry.
 */
module Notify {
  import opened Common
  import opened Text
  import ServerApi
  import Outbox

  /** Python's str() of a JSON scalar, as an f-string renders it. */
  function ValueText(v: Value): (t: string)
    ensures v.Str? ==> t == v.s
    ensures v.Null? ==> t == "None"
    ensures v.Bool? ==> t == (if v.b then "True" else "False")
    ensures v.Int? && v.i >= 0 ==> IsDecimal(t) && DigitsValue(t) == v.i
    ensures v.Int? && v.i < 0 ==> |t| > 1 && t[0] == '-' && IsDecimal(t[1..]) && DigitsValue(t[1..]) == -v.i
  {
    match v
    case Null => "None"
    case Bool(b) => if b then "True" else "False"
    case Int(i) => IntToString(i)
    case Str(s) => s
  }

  /** `<SERVER_URL>/<KIOSK_ID>/job/<job id>/status`, shared by both reports. */
  function StatusUrl(kioskId: string, jobId: Value): string
  {
    ServerApi.ServerUrl + "/" + kioskId + "/job/" + ValueText(jobId) + "/status"
  }

  /** The body of the success report. */
  function SuccessPayload(code: string, jobId: Value, kioskId: string): Payload
  {
    StatusPayload(code, jobId, kioskId, "completed", "Print Job Completed")
  }

  /** The body of the failure report; the reason follows "Print failed: ". */
  function FailurePayload(code: string, jobId: Value, kioskId: string, reason: string): Payload
  {
    StatusPayload(code, jobId, kioskId, "failed", "Print failed: " + reason)
  }

  /** The success report is queued on any status but 200 and on a transport exception. */
  predicate SuccessQueued(reply: HttpReply)
  {
    reply != Reply(200)
  }

  /** The failure report is queued only on a non-200 status; a transport exception is only logged. */
  predicate FailureQueued(reply: HttpReply)
  {
    reply.Reply? && reply.status != 200
  }

  /** What notify_server_success adds to the outbox. */
  function SuccessBacklog(kioskId: string, code: string, jobId: Value, reply: HttpReply, timestamp: string): seq<Outbox.Notification>
  {
    if SuccessQueued(reply) then [Outbox.Notification(StatusUrl(kioskId, jobId), SuccessPayload(code, jobId, kioskId), timestamp, 0)]
    else []
  }

  /** What notify_server_failed adds to the outbox. */
  function FailureBacklog(kioskId: string, code: string, jobId: Value, reason: string, reply: HttpReply, timestamp: string): seq<Outbox.Notification>
  {
    if FailureQueued(reply) then [Outbox.Notification(StatusUrl(kioskId, jobId), FailurePayload(code, jobId, kioskId, reason), timestamp, 0)]
    else []
  }

  /**
   * A success report is never lost: either the service acknowledged it
   * with exactly the answer the outbox flush also counts as delivered, or
   * it is queued, fresh, under the status URL.
   */
  lemma SuccessNeverLost(kioskId: string, code: string, jobId: Value, reply: HttpReply, timestamp: string)
    ensures var b := SuccessBacklog(kioskId, code, jobId, reply, timestamp);
      && (Outbox.Acked(reply) <==> b == [])
      && (b != [] ==> |b| == 1 && b[0].attempts == 0 && b[0].url == StatusUrl(kioskId, jobId)
                      && b[0].payload.status == "completed")
  {
  }

  /**
   * A failure report is dropped without retry exactly when the POST raised;
   * otherwise it is acknowledged or queued.
   */
  lemma FailureLostOnlyOnTransportError(kioskId: string, code: string, jobId: Value, reason: string, reply: HttpReply, timestamp: string)
    ensures var b := FailureBacklog(kioskId, code, jobId, reason, reply, timestamp);
      && (!Outbox.Acked(reply) && b == [] <==> reply == TransportError)
      && (b != [] ==> |b| == 1 && b[0].payload == FailurePayload(code, jobId, kioskId, reason))
  {
  }

  /**
   * Whenever both reports for one job end up in the outbox, whatever the
   * answers and times, they are queued under the same URL and differ in
   * their status field.
   */
  lemma ReportsShareUrl(kioskId: string, code: string, jobId: Value, reason: string,
                        successReply: HttpReply, failureReply: HttpReply, t1: string, t2: string)
    requires SuccessQueued(successReply) && FailureQueued(failureReply)
    ensures var s := SuccessBacklog(kioskId, code, jobId, successReply, t1);
      var f := FailureBacklog(kioskId, code, jobId, reason, failureReply, t2);
      |s| == 1 && |f| == 1 && s[0].url == f[0].url && s[0].payload.status != f[0].payload.status
  {
  }

  /** The status URL ends in "/status" and begins with the service's kiosk URL. */
  lemma StatusUrlShape(kioskId: string, jobId: Value)
    ensures var u := StatusUrl(kioskId, jobId);
      && IsPrefix(ServerApi.ServerUrl + "/" + kioskId + "/job/", u)
      && |u| >= 7 && u[|u| - 7..] == "/status"
  {
    var u := StatusUrl(kioskId, jobId);
    var head := ServerApi.ServerUrl + "/" + kioskId + "/job/";
    assert u == head + (ValueText(jobId) + "/status");
    assert u[..|head|] == head;
  }

  /** notify_server_success, with the POST's answer given. */
  method NotifySuccess(q: Outbox.NotificationQueue, kioskId: string, code: string, jobId: Value,
                       reply: HttpReply, timestamp: string, save: Outbox.SaveOutcome)
    modifies q
    ensures q.queue == old(q.queue) + SuccessBacklog(kioskId, code, jobId, reply, timestamp)
    ensures q.disk == (if SuccessQueued(reply) then Outbox.AfterSave(old(q.disk), q.queue, save) else old(q.disk))
  {
    if reply != Reply(200) {
      q.Add(StatusUrl(kioskId, jobId), SuccessPayload(code, jobId, kioskId), timestamp, save);
    }
  }

  /** notify_server_failed, with the POST's answer given. */
  method NotifyFailed(q: Outbox.NotificationQueue, kioskId: string, code: string, jobId: Value, reason: string,
                      reply: HttpReply, timestamp: string, save: Outbox.SaveOutcome)
    modifies q
    ensures q.queue == old(q.queue) + FailureBacklog(kioskId, code, jobId, reason, reply, timestamp)
    ensures q.disk == (if FailureQueued(reply) then Outbox.AfterSave(old(q.disk), q.queue, save) else old(q.disk))
  {
    match reply
    case TransportError =>
    case Reply(status) =>
      if status != 200 {
        q.Add(StatusUrl(kioskId, jobId), FailurePayload(code, jobId, kioskId, reason), timestamp, save);
      }
  }
}
