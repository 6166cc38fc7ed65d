/** The Java variant of the campaign lifecycle
    (backend/src/main/java/com/xeno/crm/service/CampaignService.java): a JPA
    campaign table, a communication-log table and the customer table, with
    the service's create, read, update, delete, schedule, start and complete
    operations. Every operation is one transaction: a runtime exception
    leaves every table as it was. The success draw of each simulated send is
    an input, and so is the clock. */
module JavaCampaigns {
  import opened Wrappers

  type Time = int

  /** The values `Campaign.status` takes in this service. */
  datatype Status = Draft | Scheduled | Running | Completed

  /** A `Campaign` entity; a Java reference that may be null is an `Option`. */
  datatype JCampaign = JCampaign(
    name: Option<string>,
    description: Option<string>,
    status: Status,
    scheduledTime: Option<Time>,
    startTime: Option<Time>,
    endTime: Option<Time>,
    channel: Option<string>,
    messageTemplate: Option<string>,
    subject: Option<string>,
    segmentRules: Option<string>,
    targetAudienceSize: Option<int>,
    deliveredCount: Option<int>,
    failedCount: Option<int>,
    tags: Option<string>)

  /** The values `CommunicationLog.status` takes in this service. */
  datatype LogStatus = LogSent | Delivered | LogFailed

  datatype JLog = JLog(
    campaignId: int,
    customerId: int,
    status: LogStatus,
    sentAt: Time,
    deliveredAt: Option<Time>,
    errorMessage: Option<string>,
    channel: Option<string>,
    recipient: Option<string>,
    subject: Option<string>,
    messageContent: Option<string>)

  /** The customer columns the service reads. */
  datatype Customer = Customer(id: int, email: Option<string>, active: bool)

  /** The runtime exceptions the service lets escape. */
  datatype ServiceError =
    | EntityNotFound   // `findById` found nothing
    | NullPointer      // a null counter was unboxed in `sendMessage`

  const SIMULATED_FAILURE: string := "Simulated delivery failure"

  /** `updateCampaign`: the eight descriptive fields come from `details`;
      status, times and counters stay. */
  function WithDetails(c: JCampaign, details: JCampaign): (u: JCampaign)
    ensures u.status == c.status && u.startTime == c.startTime && u.endTime == c.endTime
    ensures u.targetAudienceSize == c.targetAudienceSize
    ensures u.deliveredCount == c.deliveredCount && u.failedCount == c.failedCount
    ensures u.name == details.name && u.description == details.description
    ensures u.channel == details.channel && u.messageTemplate == details.messageTemplate
    ensures u.subject == details.subject && u.segmentRules == details.segmentRules
    ensures u.scheduledTime == details.scheduledTime && u.tags == details.tags
  {
    c.(name := details.name, description := details.description, channel := details.channel,
       messageTemplate := details.messageTemplate, subject := details.subject,
       segmentRules := details.segmentRules, scheduledTime := details.scheduledTime,
       tags := details.tags)
  }

  /** `getTargetAudience`: the active customers, in table order (the segment
      rules are not consulted). */
  function Audience(customers: seq<Customer>): (a: seq<Customer>)
    ensures |a| <= |customers|
    ensures forall k :: 0 <= k < |a| ==> a[k].active
    ensures forall c :: c in customers && c.active ==> c in a
    ensures forall c :: c in a ==> c in customers
  {
    if |customers| == 0 then []
    else if customers[0].active then [customers[0]] + Audience(customers[1..])
    else Audience(customers[1..])
  }

  /** The audience keeps each active customer as often as it is listed, so
      its size is the number of sends. */
  lemma {:induction false} AudienceExact(customers: seq<Customer>)
    ensures forall c :: multiset(Audience(customers))[c] ==
                        if c.active then multiset(customers)[c] else 0
  {
    if |customers| > 0 {
      AudienceExact(customers[1..]);
      assert customers == [customers[0]] + customers[1..];
    }
  }

  /** The log `sendMessage` saves for one customer. */
  function MessageLog(campaignId: int, c: JCampaign, customer: Customer, success: bool, now: Time): (l: JLog)
    ensures l.status != LogSent
    ensures l.status == Delivered <==> success
    ensures success ==> l.deliveredAt == Some(now) && l.errorMessage == None
    ensures !success ==> l.deliveredAt == None && l.errorMessage == Some(SIMULATED_FAILURE)
    ensures l.campaignId == campaignId && l.customerId == customer.id && l.recipient == customer.email
  {
    var sent := JLog(campaignId, customer.id, if success then LogSent else LogFailed, now, None, None,
                     c.channel, customer.email, c.subject, c.messageTemplate);
    if success then sent.(deliveredAt := Some(now), status := Delivered)
    else sent.(errorMessage := Some(SIMULATED_FAILURE))
  }

  /** The logs of the first `n` sends of a start, in audience order. */
  function SentLogs(campaignId: int, c: JCampaign, audience: seq<Customer>, success: nat -> bool,
                    now: Time, n: nat): (logs: seq<JLog>)
    requires n <= |audience|
    ensures |logs| == n
    ensures forall k :: 0 <= k < n ==> logs[k] == MessageLog(campaignId, c, audience[k], success(k), now)
  {
    seq(n, k requires 0 <= k < n => MessageLog(campaignId, c, audience[k], success(k), now))
  }

  /** A send's log does not depend on the campaign's counters. */
  lemma MessageLogIgnoresCounts(campaignId: int, c: JCampaign, d: JCampaign, customer: Customer,
                                success: bool, now: Time)
    requires c.channel == d.channel && c.subject == d.subject && c.messageTemplate == d.messageTemplate
    ensures MessageLog(campaignId, c, customer, success, now) == MessageLog(campaignId, d, customer, success, now)
  {
  }

  lemma SentLogsStep(campaignId: int, c: JCampaign, audience: seq<Customer>, success: nat -> bool,
                     now: Time, k: nat)
    requires k < |audience|
    ensures SentLogs(campaignId, c, audience, success, now, k + 1) ==
            SentLogs(campaignId, c, audience, success, now, k) + [MessageLog(campaignId, c, audience[k], success(k), now)]
  {
  }

  /** How many of the first `n` draws succeed. */
  function Successes(success: nat -> bool, n: nat): (s: nat)
    ensures s <= n
  {
    if n == 0 then 0 else Successes(success, n - 1) + (if success(n - 1) then 1 else 0)
  }

  /** The campaign after `n` sends: both counters grown, by the successes
      and by the failures. */
  function Tallied(c: JCampaign, success: nat -> bool, n: nat): (t: JCampaign)
    requires c.deliveredCount.Some? && c.failedCount.Some?
    ensures t.deliveredCount.Some? && t.failedCount.Some?
    ensures t.deliveredCount.value == c.deliveredCount.value + Successes(success, n)
    ensures t.failedCount.value == c.failedCount.value + (n - Successes(success, n))
    ensures t.(deliveredCount := c.deliveredCount, failedCount := c.failedCount) == c
  {
    c.(deliveredCount := Some(c.deliveredCount.value + Successes(success, n)),
       failedCount := Some(c.failedCount.value + (n - Successes(success, n))))
  }

  lemma TalliedStep(c: JCampaign, success: nat -> bool, k: nat)
    requires c.deliveredCount.Some? && c.failedCount.Some?
    ensures var t := Tallied(c, success, k);
      Tallied(c, success, k + 1) ==
        t.(deliveredCount := Some(t.deliveredCount.value + (if success(k) then 1 else 0)),
           failedCount := Some(t.failedCount.value + (if success(k) then 0 else 1)))
  {
  }

  /** The number of logs among `logs` with status `s`. */
  function CountStatus(logs: seq<JLog>, s: LogStatus): (n: nat)
    ensures n <= |logs|
  {
    if |logs| == 0 then 0
    else CountStatus(logs[..|logs| - 1], s) + (if logs[|logs| - 1].status == s then 1 else 0)
  }

  /** The delivered counter of a start grows by as many as the DELIVERED logs
      the start saved, and the failed counter by as many as the FAILED ones;
      no saved log is left SENT. */
  lemma {:induction false} CountersMatchLogs(campaignId: int, c: JCampaign, audience: seq<Customer>,
                                             success: nat -> bool, now: Time, n: nat)
    requires n <= |audience|
    ensures CountStatus(SentLogs(campaignId, c, audience, success, now, n), Delivered) == Successes(success, n)
    ensures CountStatus(SentLogs(campaignId, c, audience, success, now, n), LogFailed) == n - Successes(success, n)
    ensures CountStatus(SentLogs(campaignId, c, audience, success, now, n), LogSent) == 0
  {
    if n > 0 {
      var logs := SentLogs(campaignId, c, audience, success, now, n);
      CountersMatchLogs(campaignId, c, audience, success, now, n - 1);
      assert logs[..n - 1] == SentLogs(campaignId, c, audience, success, now, n - 1);
    }
  }

  /** `calculateRate`: 0 when the total is null or 0, otherwise count/total. */
  function CalculateRate(count: int, total: Option<int>): (r: real)
    ensures total.None? || total.value == 0 ==> r == 0.0
    ensures total.Some? && total.value != 0 ==> r * total.value as real == count as real
    ensures total.Some? && 0 <= count <= total.value ==> 0.0 <= r <= 1.0
  {
    if total.None? || total.value == 0 then 0.0
    else count as real / total.value as real
  }

  class CampaignService {
    var campaigns: map<int, JCampaign>
    var logs: seq<JLog>
    const customers: seq<Customer>
    /** The next identity value of the campaign table. */
    var nextId: int

    ghost predicate Valid()
      reads this
    {
      forall id :: id in campaigns ==> id < nextId
    }

    constructor (customerTable: seq<Customer>)
      ensures Valid()
      ensures campaigns == map[] && logs == [] && customers == customerTable && nextId == 1
    {
      campaigns := map[];
      logs := [];
      customers := customerTable;
      nextId := 1;
    }

    /** `createCampaign`: the campaign is stored as DRAFT whatever status it
        had, its other fields, counters included, as given. `save` inserts a
        body without an id under a new identity value; a body whose id names
        a stored campaign is merged onto that row, replacing every field. A
        body id that names no row is inserted under a new identity value. */
    method CreateCampaign(bodyId: Option<int>, campaign: JCampaign) returns (id: int, saved: JCampaign)
      requires Valid()
      modifies this`campaigns, this`nextId
      ensures Valid()
      ensures saved == campaign.(status := Draft)
      ensures campaigns == old(campaigns)[id := saved]
      ensures bodyId.Some? && bodyId.value in old(campaigns) ==>
        id == bodyId.value && nextId == old(nextId)
      ensures bodyId.None? || bodyId.value !in old(campaigns) ==>
        id !in old(campaigns) && nextId == old(nextId) + 1
    {
      saved := campaign.(status := Draft);
      if bodyId.Some? && bodyId.value in campaigns {
        id := bodyId.value;
      } else {
        id := nextId;
        nextId := nextId + 1;
      }
      campaigns := campaigns[id := saved];
    }

    /** `getCampaignById`: the stored campaign, or EntityNotFound. */
    function GetCampaignById(id: int): (r: Result<JCampaign, ServiceError>)
      reads this
      ensures r.Success? <==> id in campaigns
      ensures r.Success? ==> r.value == campaigns[id]
      ensures r.Failure? ==> r.error == EntityNotFound
    {
      if id in campaigns then Success(campaigns[id]) else Failure(EntityNotFound)
    }

    /** `updateCampaign`: copy the descriptive fields of `details`. */
    method UpdateCampaign(id: int, details: JCampaign) returns (r: Result<JCampaign, ServiceError>)
      requires Valid()
      modifies this`campaigns
      ensures Valid()
      ensures id !in old(campaigns) ==> r == Failure(EntityNotFound) && campaigns == old(campaigns)
      ensures id in old(campaigns) ==>
        && r == Success(WithDetails(old(campaigns)[id], details))
        && campaigns == old(campaigns)[id := r.value]
    {
      var found := GetCampaignById(id);
      if found.Failure? {
        return Failure(found.error);
      }
      var c := WithDetails(found.value, details);
      campaigns := campaigns[id := c];
      r := Success(c);
    }

    /** `deleteCampaign`: remove the campaign; the cascade on its
        communication logs removes them too. */
    method DeleteCampaign(id: int) returns (r: Result<(), ServiceError>)
      requires Valid()
      modifies this`campaigns, this`logs
      ensures Valid()
      ensures id !in old(campaigns) ==>
        r == Failure(EntityNotFound) && campaigns == old(campaigns) && logs == old(logs)
      ensures id in old(campaigns) ==>
        && r == Success(())
        && campaigns == old(campaigns) - {id}
        && logs == WithoutCampaign(old(logs), id)
    {
      var found := GetCampaignById(id);
      if found.Failure? {
        return Failure(found.error);
      }
      campaigns := campaigns - {id};
      logs := WithoutCampaign(logs, id);
      r := Success(());
    }

    /** `scheduleCampaign`: SCHEDULED at the given time, from any status. */
    method ScheduleCampaign(id: int, scheduledTime: Option<Time>) returns (r: Result<(), ServiceError>)
      requires Valid()
      modifies this`campaigns
      ensures Valid()
      ensures id !in old(campaigns) ==> r == Failure(EntityNotFound) && campaigns == old(campaigns)
      ensures id in old(campaigns) ==>
        && r == Success(())
        && campaigns == old(campaigns)[id := old(campaigns)[id].(status := Scheduled, scheduledTime := scheduledTime)]
    {
      var found := GetCampaignById(id);
      if found.Failure? {
        return Failure(found.error);
      }
      campaigns := campaigns[id := found.value.(status := Scheduled, scheduledTime := scheduledTime)];
      r := Success(());
    }

    /** `completeCampaign`: COMPLETED with an end time, from any status. */
    method CompleteCampaign(id: int, now: Time) returns (r: Result<(), ServiceError>)
      requires Valid()
      modifies this`campaigns
      ensures Valid()
      ensures id !in old(campaigns) ==> r == Failure(EntityNotFound) && campaigns == old(campaigns)
      ensures id in old(campaigns) ==>
        && r == Success(())
        && campaigns == old(campaigns)[id := old(campaigns)[id].(status := Completed, endTime := Some(now))]
    {
      var found := GetCampaignById(id);
      if found.Failure? {
        return Failure(found.error);
      }
      campaigns := campaigns[id := found.value.(status := Completed, endTime := Some(now))];
      r := Success(());
    }

    /** `startCampaign`: RUNNING with a start time and the audience size,
        then one simulated send per active customer; `success(k)` is the
        draw of the k-th send. A null counter throws on the first send and
        the transaction rolls back. */
    method StartCampaign(id: int, now: Time, success: nat -> bool) returns (r: Result<(), ServiceError>)
      requires Valid()
      modifies this`campaigns, this`logs
      ensures Valid()
      ensures id !in old(campaigns) ==>
        r == Failure(EntityNotFound) && campaigns == old(campaigns) && logs == old(logs)
      ensures id in old(campaigns) ==>
        var audience := Audience(customers);
        var running := old(campaigns)[id].(status := Running, startTime := Some(now),
                                           targetAudienceSize := Some(|audience|));
        if |audience| > 0 && (running.deliveredCount.None? || running.failedCount.None?) then
          r == Failure(NullPointer) && campaigns == old(campaigns) && logs == old(logs)
        else
          && r == Success(())
          && logs == old(logs) + SentLogs(id, running, audience, success, now, |audience|)
          && campaigns == old(campaigns)[id := if |audience| == 0 then running
                                               else Tallied(running, success, |audience|)]
    {
      var found := GetCampaignById(id);
      if found.Failure? {
        return Failure(found.error);
      }
      var audience := Audience(customers);
      var running := found.value.(status := Running, startTime := Some(now),
                                  targetAudienceSize := Some(|audience|));
      var sent := SendMessages(id, running, audience, success, now);
      if sent.Failure? {
        return Failure(sent.error);
      }
      campaigns := campaigns[id := sent.value.0];
      logs := logs + sent.value.1;
      r := Success(());
    }
  }

  /** The send loop of `startCampaign` on the transaction's working copies:
      one log per audience customer, and the counters tallied after each
      send. A null counter throws on the first send, after its log was
      built, and nothing is committed. */
  method SendMessages(id: int, running: JCampaign, audience: seq<Customer>, success: nat -> bool, now: Time)
    returns (r: Result<(JCampaign, seq<JLog>), ServiceError>)
    ensures |audience| > 0 && (running.deliveredCount.None? || running.failedCount.None?) ==>
              r == Failure(NullPointer)
    ensures |audience| == 0 ==> r == Success((running, []))
    ensures |audience| > 0 && running.deliveredCount.Some? && running.failedCount.Some? ==>
              r == Success((Tallied(running, success, |audience|),
                            SentLogs(id, running, audience, success, now, |audience|)))
  {
    var c := running;
    var sent := [];
    var k := 0;
    while k < |audience|
      invariant 0 <= k <= |audience|
      invariant k == 0 ==> c == running
      invariant k > 0 ==> running.deliveredCount.Some? && running.failedCount.Some?
      invariant k > 0 ==> c == Tallied(running, success, k)
      invariant sent == SentLogs(id, running, audience, success, now, k)
    {
      var ok := success(k);
      MessageLogIgnoresCounts(id, c, running, audience[k], ok, now);
      SentLogsStep(id, running, audience, success, now, k);
      sent := sent + [MessageLog(id, c, audience[k], ok, now)];
      if c.deliveredCount.None? || c.failedCount.None? {
        return Failure(NullPointer);
      }
      TalliedStep(running, success, k);
      c := c.(deliveredCount := Some(c.deliveredCount.value + (if ok then 1 else 0)),
              failedCount := Some(c.failedCount.value + (if ok then 0 else 1)));
      k := k + 1;
    }
    r := Success((c, sent));
  }

  /** The log table without the rows of one campaign, in order. */
  function WithoutCampaign(logs: seq<JLog>, id: int): (r: seq<JLog>)
    ensures forall l :: l in r <==> l in logs && l.campaignId != id
  {
    if |logs| == 0 then []
    else if logs[0].campaignId == id then WithoutCampaign(logs[1..], id)
    else [logs[0]] + WithoutCampaign(logs[1..], id)
  }

  /** A start that does not throw grows the two counters together by the
      audience size, and the delivered counter by the successful draws. */
  lemma StartCounters(c: JCampaign, success: nat -> bool, n: nat)
    requires c.deliveredCount.Some? && c.failedCount.Some?
    ensures Tallied(c, success, n).deliveredCount.value + Tallied(c, success, n).failedCount.value ==
            c.deliveredCount.value + c.failedCount.value + n
    ensures Tallied(c, success, n).deliveredCount.value - c.deliveredCount.value == Successes(success, n)
    ensures (forall k :: 0 <= k < n ==> success(k)) ==>
            Tallied(c, success, n).failedCount == c.failedCount
  {
    if forall k :: 0 <= k < n ==> success(k) {
      AllSucceed(success, n);
    }
  }

  lemma {:induction false} AllSucceed(success: nat -> bool, n: nat)
    requires forall k :: 0 <= k < n ==> success(k)
    ensures Successes(success, n) == n
  {
    if n > 0 {
      AllSucceed(success, n - 1);
    }
  }
}
