/** The campaign HTTP routes of backend/src/routes/campaign.routes.ts that
    change state: create (POST /), update (PUT /:id) and start delivery
    (POST /:id/start). The campaign and log tables are fields of one store;
    the segment-to-customers relation is read-only here. A database error on
    a log create or a log update inside start is an input (`createFaults`,
    `faults`). */
module CampaignRoutes {
  import opened Wrappers
  import opened Records

  /** The error text a log gets when its SENT update throws. */
  const DELIVERY_FAILED: string := "Delivery failed"

  /** The request body of POST /: `None` for a name or message the body
      lacks; its `status`, if any, is ignored. */
  datatype CampaignInput = CampaignInput(
    name: Option<string>,
    message: Option<string>,
    segmentId: Id,
    status: Option<string>)

  /** The request body of PUT /:id: an absent field leaves the column alone.
      The status is the text the body gives. */
  datatype CampaignPatch = CampaignPatch(
    name: Option<string>,
    message: Option<string>,
    status: Option<string>,
    segmentId: Option<Id>)

  /** The CampaignStatus enum value a text names, if any. */
  function ParseCampaignStatus(s: string): (r: Option<CampaignStatus>)
    ensures r == Some(Draft) <==> s == "DRAFT"
    ensures r == Some(Sending) <==> s == "SENDING"
    ensures r == Some(Completed) <==> s == "COMPLETED"
    ensures r == Some(CampaignFailed) <==> s == "FAILED"
  {
    if s == "DRAFT" then Some(Draft)
    else if s == "SENDING" then Some(Sending)
    else if s == "COMPLETED" then Some(Completed)
    else if s == "FAILED" then Some(CampaignFailed)
    else None
  }

  /** A patch the database accepts: any status it gives is an enum value. */
  predicate ValidPatch(p: CampaignPatch) {
    p.status.None? || ParseCampaignStatus(p.status.value).Some?
  }

  /** What happens to the two updates of one log row inside the start loop. */
  datatype UpdateFault =
    | NoFault            // the SENT update succeeds
    | SentUpdateThrows   // the SENT update throws, the FAILED update succeeds
    | BothUpdatesThrow   // both throw: the handler answers 500 and stops

  /** The campaign after a PUT: each given field overwrites, with no check of
      the status transition. */
  function Patched(c: Campaign, p: CampaignPatch): (u: Campaign)
    requires ValidPatch(p)
    ensures u.userId == c.userId
    ensures u.name == p.name.GetOr(c.name) && u.message == p.message.GetOr(c.message)
    ensures u.segmentId == p.segmentId.GetOr(c.segmentId)
    ensures p.status.Some? ==> Some(u.status) == ParseCampaignStatus(p.status.value)
    ensures p.status.None? ==> u.status == c.status
    ensures p == CampaignPatch(None, None, None, None) ==> u == c
  {
    Campaign(
      p.name.GetOr(c.name),
      p.message.GetOr(c.message),
      if p.status.Some? then ParseCampaignStatus(p.status.value).value else c.status,
      c.userId,
      p.segmentId.GetOr(c.segmentId))
  }

  /** Repeating a PUT changes nothing more: the update is idempotent. */
  lemma PatchedTwice(c: Campaign, p: CampaignPatch)
    requires ValidPatch(p)
    ensures Patched(Patched(c, p), p) == Patched(c, p)
  {
  }

  /** The PENDING logs dispatch creates, one per segment customer, in order. */
  function Created(campaignId: Id, customers: seq<Id>): (logs: seq<Log>)
    ensures |logs| == |customers|
    ensures forall k :: 0 <= k < |customers| ==> logs[k] == PendingLog(campaignId, customers[k])
  {
    seq(|customers|, k requires 0 <= k < |customers| => PendingLog(campaignId, customers[k]))
  }

  /** Some of the first `n` log creates fails. */
  predicate AnyCreateFails(createFaults: nat -> bool, n: nat) {
    exists k :: 0 <= k < n && createFaults(k)
  }

  /** The created logs whose create succeeded, in order: the rows that remain
      when one create of the Promise.all batch fails, since the others still
      run to completion. */
  function Persisted(created: seq<Log>, createFaults: nat -> bool): (rows: seq<Log>)
    ensures |rows| <= |created|
  {
    if |created| == 0 then []
    else
      var n := |created| - 1;
      Persisted(created[..n], createFaults) + (if createFaults(n) then [] else [created[n]])
  }

  /** Every row whose create succeeded persists. */
  lemma {:induction false} PersistedKeeps(created: seq<Log>, createFaults: nat -> bool, k: nat)
    requires k < |created| && !createFaults(k)
    ensures created[k] in Persisted(created, createFaults)
  {
    var n := |created| - 1;
    if k < n {
      PersistedKeeps(created[..n], createFaults, k);
    }
  }

  /** Only rows whose create succeeded persist. */
  lemma {:induction false} PersistedOnly(created: seq<Log>, createFaults: nat -> bool, l: Log)
    requires l in Persisted(created, createFaults)
    ensures exists k :: 0 <= k < |created| && !createFaults(k) && created[k] == l
  {
    var n := |created| - 1;
    var front := created[..n];
    if l in Persisted(front, createFaults) {
      PersistedOnly(front, createFaults, l);
      var k :| 0 <= k < |front| && !createFaults(k) && front[k] == l;
      assert created[k] == l;
    } else {
      assert !createFaults(n) && created[n] == l;
    }
  }

  /** When no create fails, every row persists, in order. */
  lemma {:induction false} PersistedAll(created: seq<Log>, createFaults: nat -> bool)
    requires !AnyCreateFails(createFaults, |created|)
    ensures Persisted(created, createFaults) == created
  {
    if |created| > 0 {
      var n := |created| - 1;
      assert !AnyCreateFails(createFaults, n);
      PersistedAll(created[..n], createFaults);
      assert created == created[..n] + [created[n]];
    }
  }

  /** When a create fails, fewer rows persist than were created. */
  lemma {:induction false} PersistedFewer(created: seq<Log>, createFaults: nat -> bool)
    requires AnyCreateFails(createFaults, |created|)
    ensures |Persisted(created, createFaults)| < |created|
  {
    var n := |created| - 1;
    if !createFaults(n) {
      var k :| 0 <= k < |created| && createFaults(k);
      assert AnyCreateFails(createFaults, n);
      PersistedFewer(created[..n], createFaults);
    }
  }

  /** A log row after its update in the start loop (for a fault other than
      BothUpdatesThrow). */
  function SettleLog(l: Log, fault: UpdateFault, now: Time): (r: Log)
    ensures r.campaignId == l.campaignId && r.customerId == l.customerId
    ensures r.status != Pending && (r.status == Sent <==> fault == NoFault)
    ensures fault == NoFault ==> r.sentAt == Some(now) && r.error == l.error
    ensures fault != NoFault ==> r.sentAt == l.sentAt && r.error == Some(DELIVERY_FAILED)
  {
    if fault == NoFault then l.(status := Sent, sentAt := Some(now))
    else l.(status := Failed, error := Some(DELIVERY_FAILED))
  }

  /** The position of the first log whose two updates both throw, or `n`. */
  function FirstAbort(faults: nat -> UpdateFault, n: nat): (stop: nat)
    ensures stop <= n
    ensures forall k :: 0 <= k < stop ==> faults(k) != BothUpdatesThrow
    ensures stop < n ==> faults(stop) == BothUpdatesThrow
  {
    FirstAbortFrom(faults, 0, n)
  }

  function FirstAbortFrom(faults: nat -> UpdateFault, from: nat, n: nat): (stop: nat)
    requires from <= n
    requires forall k :: 0 <= k < from ==> faults(k) != BothUpdatesThrow
    ensures from <= stop <= n
    ensures forall k :: 0 <= k < stop ==> faults(k) != BothUpdatesThrow
    ensures stop < n ==> faults(stop) == BothUpdatesThrow
    decreases n - from
  {
    if from == n then n
    else if faults(from) == BothUpdatesThrow then from
    else FirstAbortFrom(faults, from + 1, n)
  }

  /** The created logs after the loop: the first `stop` settled, the rest
      still PENDING. */
  function Dispatched(created: seq<Log>, faults: nat -> UpdateFault, now: Time, stop: nat): (logs: seq<Log>)
    requires stop <= |created|
    ensures |logs| == |created|
  {
    seq(stop, k requires 0 <= k < stop => SettleLog(created[k], faults(k), now)) + created[stop..]
  }

  /** The logs before the stop are settled by their fault; those from it on
      are as created. */
  lemma DispatchedAt(created: seq<Log>, faults: nat -> UpdateFault, now: Time, stop: nat)
    requires stop <= |created|
    ensures forall k :: 0 <= k < stop ==> Dispatched(created, faults, now, stop)[k] == SettleLog(created[k], faults(k), now)
    ensures forall k :: stop <= k < |created| ==> Dispatched(created, faults, now, stop)[k] == created[k]
  {
  }

  /** After a start that answers 200, every created log has left PENDING:
      SENT with `sentAt` set, or FAILED with "Delivery failed"; each keeps its
      campaign and customer. */
  lemma DispatchSettlesAll(campaignId: Id, customers: seq<Id>, faults: nat -> UpdateFault, now: Time)
    requires FirstAbort(faults, |customers|) == |customers|
    ensures var logs := Dispatched(Created(campaignId, customers), faults, now, |customers|);
      forall k :: 0 <= k < |customers| ==>
        && logs[k].campaignId == campaignId && logs[k].customerId == customers[k]
        && logs[k].status != Pending
        && (logs[k].status == Sent <==> faults(k) == NoFault)
        && (logs[k].status == Sent ==> logs[k].sentAt == Some(now))
        && (logs[k].status == Failed ==> logs[k].error == Some(DELIVERY_FAILED))
  {
    var created := Created(campaignId, customers);
    var logs := Dispatched(created, faults, now, |customers|);
    forall k | 0 <= k < |customers|
      ensures logs[k] == SettleLog(created[k], faults(k), now)
    {
    }
  }

  /** The (campaign, customer) pair of each row. */
  function Pairs(logs: seq<Log>): (ps: seq<(Id, Id)>)
    ensures |ps| == |logs|
    ensures forall k :: 0 <= k < |logs| ==> ps[k] == (logs[k].campaignId, logs[k].customerId)
  {
    seq(|logs|, k requires 0 <= k < |logs| => (logs[k].campaignId, logs[k].customerId))
  }

  /** How many rows belong to a (campaign, customer) pair. */
  function CountPair(logs: seq<Log>, campaignId: Id, customerId: Id): nat {
    multiset(Pairs(logs))[(campaignId, customerId)]
  }

  lemma {:induction false} CreatedPairs(campaignId: Id, customers: seq<Id>, customerId: Id)
    ensures CountPair(Created(campaignId, customers), campaignId, customerId) == multiset(customers)[customerId]
  {
    if |customers| > 0 {
      var n := |customers|;
      CreatedPairs(campaignId, customers[..n - 1], customerId);
      assert Pairs(Created(campaignId, customers)) ==
        Pairs(Created(campaignId, customers[..n - 1])) + [(campaignId, customers[n - 1])];
      assert customers == customers[..n - 1] + [customers[n - 1]];
    }
  }

  /** Dispatch adds, for each customer, as many logs of the pair as the
      customer occurs in the segment, however the loop ends. With no status
      guard, a second start adds a second log for every pair. */
  lemma DispatchLogCount(old_logs: seq<Log>, campaignId: Id, customers: seq<Id>,
                         faults: nat -> UpdateFault, now: Time, stop: nat, customerId: Id)
    requires stop <= |customers|
    ensures var created := Created(campaignId, customers);
      CountPair(old_logs + Dispatched(created, faults, now, stop), campaignId, customerId) ==
      CountPair(old_logs, campaignId, customerId) + multiset(customers)[customerId]
  {
    var created := Created(campaignId, customers);
    var after := Dispatched(created, faults, now, stop);
    forall k | 0 <= k < |after|
      ensures Pairs(after)[k] == Pairs(created)[k]
    {
      if k < stop {
        assert after[k] == SettleLog(created[k], faults(k), now);
      } else {
        assert after[k] == created[k];
      }
    }
    assert Pairs(after) == Pairs(created);
    assert Pairs(old_logs + after) == Pairs(old_logs) + Pairs(after);
    CreatedPairs(campaignId, customers, customerId);
  }

  class CampaignStore {
    var campaigns: map<Id, Campaign>
    /** The CommunicationLog table; a row's id is its position. */
    var logs: seq<Log>
    /** The customers of each segment (`segment.customers`). */
    const segmentCustomers: map<Id, seq<Id>>

    /** Every campaign references an existing segment (a foreign key). */
    ghost predicate Valid()
      reads this`campaigns
    {
      forall id :: id in campaigns ==> campaigns[id].segmentId in segmentCustomers
    }

    constructor (segments: map<Id, seq<Id>>)
      ensures Valid()
      ensures campaigns == map[] && logs == [] && segmentCustomers == segments
    {
      campaigns := map[];
      logs := [];
      segmentCustomers := segments;
    }

    /** POST /: the new campaign is a DRAFT owned by the caller, whatever
        status the body names. A missing name or message (both required
        columns) or an unknown segment (a foreign key) makes the create throw
        and the handler answers 500. `id` is the id the database generates. */
    method CreateCampaign(userId: Id, input: CampaignInput, id: Id) returns (res: Result<Campaign, HttpError>)
      requires Valid() && id !in campaigns
      modifies this`campaigns
      ensures Valid()
      ensures input.name.None? || input.message.None? || input.segmentId !in segmentCustomers ==>
        res == Failure(ServerError) && campaigns == old(campaigns)
      ensures input.name.Some? && input.message.Some? && input.segmentId in segmentCustomers ==>
        && res == Success(Campaign(input.name.value, input.message.value, Draft, userId, input.segmentId))
        && campaigns == old(campaigns)[id := res.value]
    {
      if input.name.None? || input.message.None? || input.segmentId !in segmentCustomers {
        return Failure(ServerError);
      }
      var c := Campaign(input.name.value, input.message.value, Draft, userId, input.segmentId);
      campaigns := campaigns[id := c];
      res := Success(c);
    }

    /** PUT /:id: overwrite the given fields, status included, with no
        transition check. An unknown campaign or segment, or a status outside
        the enum, makes the update throw and the handler answers 500. */
    method UpdateCampaign(id: Id, patch: CampaignPatch) returns (res: Result<Campaign, HttpError>)
      requires Valid()
      modifies this`campaigns
      ensures Valid()
      ensures id !in old(campaigns) || !ValidPatch(patch) ||
              (patch.segmentId.Some? && patch.segmentId.value !in segmentCustomers) ==>
        res == Failure(ServerError) && campaigns == old(campaigns)
      ensures id in old(campaigns) && ValidPatch(patch) &&
              (patch.segmentId.None? || patch.segmentId.value in segmentCustomers) ==>
        && res == Success(Patched(old(campaigns)[id], patch))
        && campaigns == old(campaigns)[id := res.value]
    {
      if id !in campaigns || !ValidPatch(patch) ||
         (patch.segmentId.Some? && patch.segmentId.value !in segmentCustomers) {
        return Failure(ServerError);
      }
      var c := Patched(campaigns[id], patch);
      campaigns := campaigns[id := c];
      res := Success(c);
    }

    /** The Promise.all of log creates: each create runs, the rows whose
        create succeeds are appended, and the batch fails if any create did. */
    method CreateLogs(created: seq<Log>, createFaults: nat -> bool) returns (failed: bool)
      modifies this`logs
      ensures failed == AnyCreateFails(createFaults, |created|)
      ensures logs == old(logs) + Persisted(created, createFaults)
    {
      failed := false;
      var j := 0;
      while j < |created|
        invariant 0 <= j <= |created|
        invariant failed == AnyCreateFails(createFaults, j)
        invariant logs == old(logs) + Persisted(created[..j], createFaults)
      {
        assert created[..j + 1][..j] == created[..j];
        if createFaults(j) {
          failed := true;
        } else {
          logs := logs + [created[j]];
        }
        j := j + 1;
      }
      assert created[..|created|] == created;
    }

    /** The delivery loop over the logs appended at `base`: each is updated
        to SENT, or to FAILED when that update throws; when the FAILED update
        throws too, the loop stops there with the rest still PENDING. */
    method SettleLogs(ghost before: seq<Log>, created: seq<Log>, now: Time, faults: nat -> UpdateFault)
      returns (aborted: bool)
      requires logs == before + created
      modifies this`logs
      ensures aborted == (FirstAbort(faults, |created|) < |created|)
      ensures logs == before + Dispatched(created, faults, now, FirstAbort(faults, |created|))
    {
      DispatchedNone(created, faults, now);
      var k := 0;
      while k < |created|
        invariant 0 <= k <= |created|
        invariant forall j :: 0 <= j < k ==> faults(j) != BothUpdatesThrow
        invariant logs == before + Dispatched(created, faults, now, k)
      {
        var fault := faults(k);
        if fault == BothUpdatesThrow {
          FirstAbortAt(faults, k, |created|);
          return true;
        }
        SettleOne(before, created, now, faults, k);
        k := k + 1;
      }
      FirstAbortNone(faults, |created|);
      aborted := false;
    }

    /** One pass of the update loop: the `k`-th created log is updated to
        SENT, or to FAILED when that update throws. */
    method SettleOne(ghost before: seq<Log>, created: seq<Log>, now: Time, faults: nat -> UpdateFault, k: nat)
      requires k < |created|
      requires logs == before + Dispatched(created, faults, now, k)
      modifies this`logs
      ensures logs == before + Dispatched(created, faults, now, k + 1)
    {
      DispatchedStep(before, created, faults, now, k);
      var i := |logs| - |created| + k;
      logs := logs[i := SettleLog(logs[i], faults(k), now)];
    }

    /** POST /:id/start: set the campaign SENDING, create one PENDING log per
        segment customer, then update each created log to SENT (or FAILED when
        that update throws). The reply lists the logs as created. If a create
        fails (`createFaults`), Promise.all rejects after the other creates
        have landed: the handler answers 500 with those rows PENDING and the
        campaign SENDING. If both updates of a log throw, the handler answers
        500 and the later logs stay PENDING. There is no status guard. */
    method StartCampaign(id: Id, now: Time, createFaults: nat -> bool, faults: nat -> UpdateFault)
      returns (res: Result<seq<Log>, HttpError>)
      requires Valid()
      modifies this`campaigns, this`logs
      ensures Valid()
      ensures id !in old(campaigns) ==>
        res == Failure(NotFound) && campaigns == old(campaigns) && logs == old(logs)
      ensures id in old(campaigns) ==>
        var customers := segmentCustomers[old(campaigns)[id].segmentId];
        var created := Created(id, customers);
        var stop := FirstAbort(faults, |customers|);
        && campaigns == old(campaigns)[id := old(campaigns)[id].(status := Sending)]
        && (AnyCreateFails(createFaults, |customers|) ==>
              res == Failure(ServerError) && logs == old(logs) + Persisted(created, createFaults))
        && (!AnyCreateFails(createFaults, |customers|) ==>
              && logs == old(logs) + Dispatched(created, faults, now, stop)
              && (stop == |customers| ==> res == Success(created))
              && (stop < |customers| ==> res == Failure(ServerError)))
    {
      if id !in campaigns {
        return Failure(NotFound);
      }
      var customers := segmentCustomers[campaigns[id].segmentId];
      campaigns := campaigns[id := campaigns[id].(status := Sending)];
      var created := Created(id, customers);
      var failed := CreateLogs(created, createFaults);
      if failed {
        return Failure(ServerError);
      }
      PersistedAll(created, createFaults);
      var aborted := SettleLogs(old(logs), created, now, faults);
      res := if aborted then Failure(ServerError) else Success(created);
    }
  }

  /** Before the loop no log is settled. */
  lemma DispatchedNone(created: seq<Log>, faults: nat -> UpdateFault, now: Time)
    ensures Dispatched(created, faults, now, 0) == created
  {
  }

  /** Settling row `k` of the appended logs extends the settled prefix by one. */
  lemma DispatchedStep(before: seq<Log>, created: seq<Log>, faults: nat -> UpdateFault, now: Time, k: nat)
    requires k < |created|
    ensures var logs := before + Dispatched(created, faults, now, k);
      logs[|before| + k := SettleLog(logs[|before| + k], faults(k), now)] ==
      before + Dispatched(created, faults, now, k + 1)
  {
    var logs := before + Dispatched(created, faults, now, k);
    var next := before + Dispatched(created, faults, now, k + 1);
    assert logs[|before| + k] == created[k];
    forall i | 0 <= i < |next|
      ensures logs[|before| + k := SettleLog(created[k], faults(k), now)][i] == next[i]
    {
      if i >= |before| {
        assert Dispatched(created, faults, now, k + 1)[i - |before|] == next[i];
      }
    }
  }

  lemma FirstAbortAt(faults: nat -> UpdateFault, k: nat, n: nat)
    requires k < n && faults(k) == BothUpdatesThrow
    requires forall j :: 0 <= j < k ==> faults(j) != BothUpdatesThrow
    ensures FirstAbort(faults, n) == k
  {
  }

  lemma FirstAbortNone(faults: nat -> UpdateFault, n: nat)
    requires forall j :: 0 <= j < n ==> faults(j) != BothUpdatesThrow
    ensures FirstAbort(faults, n) == n
  {
  }
}
