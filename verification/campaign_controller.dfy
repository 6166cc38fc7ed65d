/** The campaign controller of the TypeScript backend
    (backend/src/controllers/campaign.controller.ts): the guarded create and
    the per-campaign delivery statistics. Both are pure over the tables they
    read; a create returns the new campaign table. */
module CampaignController {
  import opened Wrappers
  import opened Records
  import CampaignRoutes

  /** `!userId` in JavaScript: no user, or an empty id. */
  predicate Unauthenticated(userId: Option<Id>) {
    userId.None? || userId.value == ""
  }

  /** POST with `{ name, message, segmentId }`, each `None` when the body
      lacks it: 401 without a user; a 500 when `segmentId` is missing, since
      `findUnique` rejects an undefined id; 404 when the segment does not
      exist; a 500 when `name` or `message` is missing, since the create
      rejects a missing required field; otherwise the table with a new DRAFT
      campaign owned by the caller under the generated id `freshId`. */
  function CreateCampaign(userId: Option<Id>, name: Option<string>, message: Option<string>,
                          segmentId: Option<Id>, segments: set<Id>, campaigns: map<Id, Campaign>,
                          freshId: Id)
    : (r: Result<map<Id, Campaign>, HttpError>)
    requires freshId !in campaigns
    ensures Unauthenticated(userId) ==> r == Failure(Unauthorized)
    ensures !Unauthenticated(userId) && segmentId.None? ==> r == Failure(ServerError)
    ensures !Unauthenticated(userId) && segmentId.Some? && segmentId.value !in segments ==>
              r == Failure(NotFound)
    ensures (!Unauthenticated(userId) && segmentId.Some? && segmentId.value in segments &&
             (name.None? || message.None?)) ==> r == Failure(ServerError)
    ensures r.Success? <==>
              && !Unauthenticated(userId) && name.Some? && message.Some?
              && segmentId.Some? && segmentId.value in segments
    ensures r.Success? ==>
      && r.value.Keys == campaigns.Keys + {freshId}
      && (forall id :: id in campaigns ==> r.value[id] == campaigns[id])
      && r.value[freshId] == Campaign(name.value, message.value, Draft, userId.value, segmentId.value)
  {
    if Unauthenticated(userId) then Failure(Unauthorized)
    else if segmentId.None? then Failure(ServerError)
    else if segmentId.value !in segments then Failure(NotFound)
    else if name.None? || message.None? then Failure(ServerError)
    else Success(campaigns[freshId := Campaign(name.value, message.value, Draft, userId.value, segmentId.value)])
  }

  /** The JSON body of a stats reply. */
  datatype Stats = Stats(totalSent: nat, totalFailed: nat, deliveryRate: real)

  /** The logs of one campaign (`findMany({ where: { campaignId } })`), in table order. */
  function CampaignLogs(logs: seq<Log>, campaignId: Id): (r: seq<Log>)
    ensures |r| <= |logs|
  {
    if |logs| == 0 then []
    else if logs[0].campaignId == campaignId then [logs[0]] + CampaignLogs(logs[1..], campaignId)
    else CampaignLogs(logs[1..], campaignId)
  }

  /** The selection holds exactly the logs of the campaign. */
  lemma {:induction false} CampaignLogsExact(logs: seq<Log>, campaignId: Id)
    ensures forall l :: l in CampaignLogs(logs, campaignId) <==> l in logs && l.campaignId == campaignId
    ensures forall l :: multiset(CampaignLogs(logs, campaignId))[l] ==
                        if l.campaignId == campaignId then multiset(logs)[l] else 0
  {
    if |logs| > 0 {
      CampaignLogsExact(logs[1..], campaignId);
      assert logs == [logs[0]] + logs[1..];
      assert forall l :: l in logs <==> l == logs[0] || l in logs[1..];
    }
  }

  /** `logs.filter(log => log.status === s).length`. */
  function Count(logs: seq<Log>, s: LogStatus): (n: nat)
    ensures n <= |logs|
  {
    if |logs| == 0 then 0
    else (if logs[0].status == s then 1 else 0) + Count(logs[1..], s)
  }

  /** Every log is PENDING, SENT or FAILED, so the three counts add up to the total. */
  lemma {:induction false} CountPartition(logs: seq<Log>)
    ensures Count(logs, Sent) + Count(logs, Failed) + Count(logs, Pending) == |logs|
  {
    if |logs| > 0 {
      CountPartition(logs[1..]);
    }
  }

  /** The count agrees with the multiplicity of the status among the rows. */
  lemma {:induction false} CountIsMultiplicity(logs: seq<Log>, s: LogStatus)
    ensures Count(logs, s) == multiset(Statuses(logs))[s]
  {
    if |logs| > 0 {
      CountIsMultiplicity(logs[1..], s);
      assert Statuses(logs) == [logs[0].status] + Statuses(logs[1..]);
    }
  }

  function Statuses(logs: seq<Log>): (ss: seq<LogStatus>)
    ensures |ss| == |logs|
    ensures forall k :: 0 <= k < |logs| ==> ss[k] == logs[k].status
  {
    seq(|logs|, k requires 0 <= k < |logs| => logs[k].status)
  }

  /** `deliveryRate`: 0 without logs, otherwise the percentage of SENT logs. */
  function DeliveryRate(sent: nat, total: nat): (rate: real)
    requires sent <= total
    ensures 0.0 <= rate <= 100.0
    ensures total == 0 ==> rate == 0.0
    ensures total > 0 ==> rate * total as real == 100.0 * sent as real
    ensures total > 0 ==> (rate == 100.0 <==> sent == total)
  {
    if total == 0 then 0.0 else (sent as real / total as real) * 100.0
  }

  /** GET /:id/stats: 401 without a user, 404 unless the campaign exists and
      belongs to the caller; otherwise the counts over the campaign's logs,
      where PENDING logs count as neither sent nor failed. */
  function GetCampaignStats(userId: Option<Id>, campaignId: Id,
                            campaigns: map<Id, Campaign>, logs: seq<Log>)
    : (r: Result<Stats, HttpError>)
    ensures Unauthenticated(userId) ==> r == Failure(Unauthorized)
    ensures !Unauthenticated(userId) &&
            (campaignId !in campaigns || campaigns[campaignId].userId != userId.value) ==>
      r == Failure(NotFound)
    ensures r.Success? <==>
      !Unauthenticated(userId) && campaignId in campaigns && campaigns[campaignId].userId == userId.value
    ensures r.Success? ==>
      var own := CampaignLogs(logs, campaignId);
      && r.value.totalSent == multiset(Statuses(own))[Sent]
      && r.value.totalFailed == multiset(Statuses(own))[Failed]
      && r.value.totalSent + r.value.totalFailed <= |own|
      && 0.0 <= r.value.deliveryRate <= 100.0
      && r.value.deliveryRate == DeliveryRate(r.value.totalSent, |own|)
  {
    if Unauthenticated(userId) then Failure(Unauthorized)
    else if campaignId !in campaigns || campaigns[campaignId].userId != userId.value then Failure(NotFound)
    else
      var own := CampaignLogs(logs, campaignId);
      var sent := Count(own, Sent);
      var failed := Count(own, Failed);
      CountPartition(own);
      CountIsMultiplicity(own, Sent);
      CountIsMultiplicity(own, Failed);
      var rate := DeliveryRate(sent, |own|);
      Success(Stats(sent, failed, rate))
  }

  lemma {:induction false} CampaignLogsAppend(a: seq<Log>, b: seq<Log>, campaignId: Id)
    ensures CampaignLogs(a + b, campaignId) == CampaignLogs(a, campaignId) + CampaignLogs(b, campaignId)
  {
    if |a| > 0 {
      CampaignLogsAppend(a[1..], b, campaignId);
      assert (a + b)[1..] == a[1..] + b;
    } else {
      assert a + b == b;
    }
  }

  lemma {:induction false} CountAppend(a: seq<Log>, b: seq<Log>, s: LogStatus)
    ensures Count(a + b, s) == Count(a, s) + Count(b, s)
  {
    if |a| > 0 {
      CountAppend(a[1..], b, s);
      assert (a + b)[1..] == a[1..] + b;
    } else {
      assert a + b == b;
    }
  }

  /** A start that answers 200 adds one SENT or FAILED log per segment
      customer to the campaign, and no PENDING one: the sent and failed
      totals together grow by the number of customers. */
  lemma StartGrowsStats(before: seq<Log>, campaignId: Id, customers: seq<Id>,
                        faults: nat -> CampaignRoutes.UpdateFault, now: Time)
    requires CampaignRoutes.FirstAbort(faults, |customers|) == |customers|
    ensures
      var after := before + CampaignRoutes.Dispatched(CampaignRoutes.Created(campaignId, customers), faults, now, |customers|);
      && Count(CampaignLogs(after, campaignId), Sent) + Count(CampaignLogs(after, campaignId), Failed) ==
         Count(CampaignLogs(before, campaignId), Sent) + Count(CampaignLogs(before, campaignId), Failed) + |customers|
      && Count(CampaignLogs(after, campaignId), Pending) == Count(CampaignLogs(before, campaignId), Pending)
  {
    var added := CampaignRoutes.Dispatched(CampaignRoutes.Created(campaignId, customers), faults, now, |customers|);
    CampaignRoutes.DispatchSettlesAll(campaignId, customers, faults, now);
    AllOwn(added, campaignId);
    NoPending(added);
    CampaignLogsAppend(before, added, campaignId);
    CountAppend(CampaignLogs(before, campaignId), added, Sent);
    CountAppend(CampaignLogs(before, campaignId), added, Failed);
    CountAppend(CampaignLogs(before, campaignId), added, Pending);
    CountPartition(added);
  }

  lemma {:induction false} AllOwn(logs: seq<Log>, campaignId: Id)
    requires forall k :: 0 <= k < |logs| ==> logs[k].campaignId == campaignId
    ensures CampaignLogs(logs, campaignId) == logs
  {
    if |logs| > 0 {
      AllOwn(logs[1..], campaignId);
    }
  }

  lemma {:induction false} NoPending(logs: seq<Log>)
    requires forall k :: 0 <= k < |logs| ==> logs[k].status != Pending
    ensures Count(logs, Pending) == 0
  {
    if |logs| > 0 {
      NoPending(logs[1..]);
    }
  }

  /** Two SENT logs and one FAILED log give a rate of two thirds. */
  lemma StatsExample()
    ensures
      var c := Campaign("Spring", "Hi", Sending, "u1", "s1");
      var logs := [Log("c1", "a", Sent, Some(1), None), Log("c1", "b", Failed, None, Some("x")),
                   Log("c2", "a", Sent, Some(1), None), Log("c1", "d", Sent, Some(2), None)];
      GetCampaignStats(Some("u1"), "c1", map["c1" := c], logs) == Success(Stats(2, 1, 200.0 / 3.0))
      && GetCampaignStats(Some("u2"), "c1", map["c1" := c], logs) == Failure(NotFound)
  {
    var logs := [Log("c1", "a", Sent, Some(1), None), Log("c1", "b", Failed, None, Some("x")),
                 Log("c2", "a", Sent, Some(1), None), Log("c1", "d", Sent, Some(2), None)];
    var own := CampaignLogs(logs, "c1");
    assert own == [logs[0], logs[1], logs[3]];
    assert own[1..] == [logs[1], logs[3]] && own[1..][1..] == [logs[3]] && own[1..][1..][1..] == [];
    assert Count([logs[3]], Sent) == 1 && Count([logs[3]], Failed) == 0;
    assert Count([logs[1], logs[3]], Sent) == 1 && Count([logs[1], logs[3]], Failed) == 1;
    assert Count(own, Sent) == 2 && Count(own, Failed) == 1;
  }
}
