/** The queue consumers of backend/src/services/consumer.service.ts: the
    campaign consumer (the delivery worker, which sends through the vendor and
    publishes a receipt) and the delivery-receipt consumer (the receipt
    batcher, which buffers receipts and flushes them into the log table in one
    transaction).

    Queue consumption is a method call per message; the broker itself is not
    modelled. A timer firing is an explicit call to `OnTimer`; no time passes.
    Whether the database commits a flush transaction is an input. */
module Consumer {
  import opened Wrappers
  import opened Json
  import opened Records
  import opened Vendor

  /** A flush runs as soon as the buffer holds this many receipts. */
  const BATCH_SIZE: nat := 50
  /** Milliseconds after which a deferred flush fires (time is not modelled). */
  const BATCH_TIMEOUT: nat := 5000

  // ---------------------------------------------------------------------
  // Message schemas (the zod validators)

  /** `z.enum(['SENT', 'FAILED'])` */
  function ParseReceiptStatus(j: Option<Json>): (r: Option<ReceiptStatus>)
    ensures r == Some(ReceiptSent) <==> j == Some(JStr("SENT"))
    ensures r == Some(ReceiptFailed) <==> j == Some(JStr("FAILED"))
  {
    match j
    case Some(JStr(s)) =>
      if s == "SENT" then Some(ReceiptSent)
      else if s == "FAILED" then Some(ReceiptFailed)
      else None
    case _ => None
  }

  /** `z.string().nullable()`: a string or null; a missing key is rejected. */
  function ParseNullableString(j: Option<Json>): (r: Option<Option<string>>)
    ensures r == Some(None) <==> j == Some(JNull)
    ensures forall s :: r == Some(Some(s)) <==> j == Some(JStr(s))
  {
    match j
    case Some(JNull) => Some(None)
    case Some(JStr(s)) => Some(Some(s))
    case _ => None
  }

  /** `deliveryReceiptSchema.parse`: an object whose ids are strings, whose
      status is SENT or FAILED and whose error is a string or null. Other keys
      are dropped. */
  function ParseReceipt(data: Json): (r: Option<Receipt>)
    ensures r.Some? <==>
      && GetString(data, "customerId").Some?
      && GetString(data, "campaignId").Some?
      && Get(data, "status") in {Some(JStr("SENT")), Some(JStr("FAILED"))}
      && (Get(data, "error") == Some(JNull) || GetString(data, "error").Some?)
    ensures r.Some? ==>
      && GetString(data, "customerId") == Some(r.value.customerId)
      && GetString(data, "campaignId") == Some(r.value.campaignId)
      && ParseReceiptStatus(Get(data, "status")) == Some(r.value.status)
      && ParseNullableString(Get(data, "error")) == Some(r.value.error)
  {
    match (GetString(data, "customerId"), GetString(data, "campaignId"),
           ParseReceiptStatus(Get(data, "status")), ParseNullableString(Get(data, "error")))
    case (Some(cu), Some(ca), Some(st), Some(er)) => Some(Receipt(cu, ca, st, er))
    case _ => None
  }

  /** The message the campaign consumer publishes on the receipt queue. */
  function EncodeReceipt(r: Receipt): (j: Json)
    ensures GetString(j, "customerId") == Some(r.customerId)
    ensures GetString(j, "campaignId") == Some(r.campaignId)
    ensures ParseReceiptStatus(Get(j, "status")) == Some(r.status)
    ensures ParseNullableString(Get(j, "error")) == Some(r.error)
  {
    JObj(map[
      "customerId" := JStr(r.customerId),
      "campaignId" := JStr(r.campaignId),
      "status" := JStr(if r.status == ReceiptSent then "SENT" else "FAILED"),
      "error" := if r.error.Some? then JStr(r.error.value) else JNull])
  }

  /** Every receipt the campaign consumer publishes passes the receipt
      consumer's validation unchanged. */
  lemma ParseEncodeReceipt(r: Receipt)
    ensures ParseReceipt(EncodeReceipt(r)) == Some(r)
  {
    var j := EncodeReceipt(r);
    assert GetString(j, "customerId") == Some(r.customerId);
    assert GetString(j, "campaignId") == Some(r.campaignId);
  }

  /** A task on the campaign queue. */
  datatype CampaignMessage = CampaignMessage(
    campaignId: Id,
    customerId: Id,
    message: string,
    customerName: string,
    logId: Id)

  /** `campaignMessageSchema.parse`: five string fields. */
  function ParseCampaignMessage(data: Json): (r: Option<CampaignMessage>)
    ensures r.Some? <==>
      && GetString(data, "campaignId").Some? && GetString(data, "customerId").Some?
      && GetString(data, "message").Some? && GetString(data, "customerName").Some?
      && GetString(data, "logId").Some?
    ensures r.Some? ==>
      && GetString(data, "campaignId") == Some(r.value.campaignId)
      && GetString(data, "customerId") == Some(r.value.customerId)
      && GetString(data, "message") == Some(r.value.message)
      && GetString(data, "customerName") == Some(r.value.customerName)
      && GetString(data, "logId") == Some(r.value.logId)
  {
    match (GetString(data, "campaignId"), GetString(data, "customerId"),
           GetString(data, "message"), GetString(data, "customerName"), GetString(data, "logId"))
    case (Some(ca), Some(cu), Some(m), Some(n), Some(l)) => Some(CampaignMessage(ca, cu, m, n, l))
    case _ => None
  }

  // ---------------------------------------------------------------------
  // What one flush does to the log table

  /** A receipt addresses every log row of its (campaign, customer) pair. */
  predicate Matches(r: Receipt, l: Log) {
    r.campaignId == l.campaignId && r.customerId == l.customerId
  }

  function ToLogStatus(s: ReceiptStatus): LogStatus {
    if s == ReceiptSent then Sent else Failed
  }

  /** `receipt.error || undefined`: only a non-empty error text is written. */
  predicate CarriesError(r: Receipt) {
    r.error.Some? && r.error.value != ""
  }

  /** The `updateMany` of one receipt, seen from one log row: a matching row
      takes the receipt's status, `sentAt` only for SENT, `error` only when the
      receipt carries a non-empty one (`undefined` leaves a column alone); a
      row of another pair is untouched. */
  function UpdateLog(l: Log, r: Receipt, now: Time): (u: Log)
    ensures u.campaignId == l.campaignId && u.customerId == l.customerId
    ensures !Matches(r, l) ==> u == l
    ensures Matches(r, l) ==> u.status == ToLogStatus(r.status)
    ensures u.sentAt == if Matches(r, l) && r.status == ReceiptSent then Some(now) else l.sentAt
    ensures u.error == if Matches(r, l) && CarriesError(r) then r.error else l.error
  {
    if !Matches(r, l) then l
    else
      l.(status := ToLogStatus(r.status),
         sentAt := if r.status == ReceiptSent then Some(now) else l.sentAt,
         error := if CarriesError(r) then r.error else l.error)
  }

  /** One `updateMany` over the whole table. */
  function ApplyReceipt(logs: seq<Log>, r: Receipt, now: Time): (u: seq<Log>)
    ensures |u| == |logs|
    ensures forall i :: 0 <= i < |logs| ==> u[i] == UpdateLog(logs[i], r, now)
  {
    seq(|logs|, i requires 0 <= i < |logs| => UpdateLog(logs[i], r, now))
  }

  /** The flush transaction: the receipts' updates applied in batch order. */
  function ApplyBatch(logs: seq<Log>, batch: seq<Receipt>, now: Time): (u: seq<Log>)
    ensures |u| == |logs|
  {
    if |batch| == 0 then logs
    else ApplyReceipt(ApplyBatch(logs, batch[..|batch| - 1], now), batch[|batch| - 1], now)
  }

  /** The batch applied to one row. */
  function ApplyAll(l: Log, batch: seq<Receipt>, now: Time): (u: Log)
    ensures u.campaignId == l.campaignId && u.customerId == l.customerId
  {
    if |batch| == 0 then l
    else UpdateLog(ApplyAll(l, batch[..|batch| - 1], now), batch[|batch| - 1], now)
  }

  /** The transaction acts on each row independently. */
  lemma {:induction false} ApplyBatchPointwise(logs: seq<Log>, batch: seq<Receipt>, now: Time, i: int)
    requires 0 <= i < |logs|
    ensures ApplyBatch(logs, batch, now)[i] == ApplyAll(logs[i], batch, now)
  {
    if |batch| > 0 {
      ApplyBatchPointwise(logs, batch[..|batch| - 1], now, i);
    }
  }

  // The closed form of a flush on one row, read off the batch.

  /** The last receipt of the batch addressed to row `l`'s pair. */
  function LastMatch(l: Log, batch: seq<Receipt>): (r: Option<Receipt>)
    ensures r.None? <==> forall k :: 0 <= k < |batch| ==> !Matches(batch[k], l)
  {
    if |batch| == 0 then None
    else if Matches(batch[|batch| - 1], l) then Some(batch[|batch| - 1])
    else
      var r := LastMatch(l, batch[..|batch| - 1]);
      assert forall k :: 0 <= k < |batch| - 1 ==> batch[..|batch| - 1][k] == batch[k];
      r
  }

  /** The receipt `LastMatch` finds is addressed to the pair, and no later
      receipt of the batch is. */
  lemma {:induction false} LastMatchIsLast(l: Log, batch: seq<Receipt>)
    requires LastMatch(l, batch).Some?
    ensures exists k :: 0 <= k < |batch| && batch[k] == LastMatch(l, batch).value && Matches(batch[k], l) &&
                        forall j :: k < j < |batch| ==> !Matches(batch[j], l)
  {
    var n := |batch| - 1;
    if Matches(batch[n], l) {
      assert batch[n] == LastMatch(l, batch).value;
    } else {
      var front := batch[..n];
      LastMatchIsLast(l, front);
      var k :| 0 <= k < |front| && front[k] == LastMatch(l, front).value && Matches(front[k], l) &&
               forall j :: k < j < |front| ==> !Matches(front[j], l);
      assert batch[k] == front[k];
      assert forall j :: k < j < |batch| ==> !Matches(batch[j], l) by {
        forall j | k < j < |batch| ensures !Matches(batch[j], l) {
          if j < n { assert batch[j] == front[j]; }
        }
      }
    }
  }

  /** Some SENT receipt of the batch is addressed to row `l`'s pair. */
  predicate AnySent(l: Log, batch: seq<Receipt>) {
    exists k :: 0 <= k < |batch| && Matches(batch[k], l) && batch[k].status == ReceiptSent
  }

  /** Receipt `r` is addressed to row `l`'s pair and carries an error. */
  predicate ErrorFor(r: Receipt, l: Log) {
    Matches(r, l) && CarriesError(r)
  }

  /** The error of the last receipt addressed to `l`'s pair that carries one. */
  function LastError(l: Log, batch: seq<Receipt>): (r: Option<string>)
    ensures r.None? <==> forall k :: 0 <= k < |batch| ==> !ErrorFor(batch[k], l)
  {
    if |batch| == 0 then None
    else if ErrorFor(batch[|batch| - 1], l) then batch[|batch| - 1].error
    else
      var r := LastError(l, batch[..|batch| - 1]);
      assert forall k :: 0 <= k < |batch| - 1 ==> batch[..|batch| - 1][k] == batch[k];
      r
  }

  /** The error `LastError` reports is that of an error-carrying receipt for
      the pair after which no other receipt for the pair carries one. */
  lemma {:induction false} LastErrorIsLast(l: Log, batch: seq<Receipt>)
    requires LastError(l, batch).Some?
    ensures exists k :: 0 <= k < |batch| && ErrorFor(batch[k], l) && LastError(l, batch) == batch[k].error &&
                        forall j :: k < j < |batch| ==> !ErrorFor(batch[j], l)
  {
    var n := |batch| - 1;
    if ErrorFor(batch[n], l) {
      assert ErrorFor(batch[n], l) && LastError(l, batch) == batch[n].error;
    } else {
      var front := batch[..n];
      LastErrorIsLast(l, front);
      var k :| 0 <= k < |front| && ErrorFor(front[k], l) && LastError(l, front) == front[k].error &&
               forall j :: k < j < |front| ==> !ErrorFor(front[j], l);
      assert batch[k] == front[k];
      assert forall j :: k < j < |batch| ==> !ErrorFor(batch[j], l) by {
        forall j | k < j < |batch| ensures !ErrorFor(batch[j], l) {
          if j < n { assert batch[j] == front[j]; }
        }
      }
    }
  }

  /** Row `l` after the batch, stated without replaying it: the status of the
      last receipt for its pair, `sentAt` set if any of them was SENT, and the
      last non-empty error among them; each column keeps its old value when no
      receipt speaks to it. */
  function Settled(l: Log, batch: seq<Receipt>, now: Time): Log {
    var last := LastMatch(l, batch);
    var err := LastError(l, batch);
    l.(status := if last.Some? then ToLogStatus(last.value.status) else l.status,
       sentAt := if AnySent(l, batch) then Some(now) else l.sentAt,
       error := if err.Some? then err else l.error)
  }

  /** Which receipts address a row depends only on its (campaign, customer) pair. */
  lemma {:induction false} SameKeySameMatches(l: Log, m: Log, batch: seq<Receipt>)
    requires l.campaignId == m.campaignId && l.customerId == m.customerId
    ensures LastMatch(l, batch) == LastMatch(m, batch)
    ensures LastError(l, batch) == LastError(m, batch)
    ensures AnySent(l, batch) == AnySent(m, batch)
  {
    if |batch| > 0 {
      SameKeySameMatches(l, m, batch[..|batch| - 1]);
    }
  }

  lemma AnySentStep(l: Log, batch: seq<Receipt>)
    requires |batch| > 0
    ensures AnySent(l, batch) <==>
      AnySent(l, batch[..|batch| - 1]) ||
      (Matches(batch[|batch| - 1], l) && batch[|batch| - 1].status == ReceiptSent)
  {
    var init := batch[..|batch| - 1];
    if AnySent(l, batch) {
      var k :| 0 <= k < |batch| && Matches(batch[k], l) && batch[k].status == ReceiptSent;
      if k < |batch| - 1 {
        assert init[k] == batch[k];
      }
    }
    if AnySent(l, init) {
      var k :| 0 <= k < |init| && Matches(init[k], l) && init[k].status == ReceiptSent;
      assert batch[k] == init[k];
    }
  }

  /** Replaying the batch row by row gives the closed form. */
  lemma {:induction false} ApplyAllSettled(l: Log, batch: seq<Receipt>, now: Time)
    ensures ApplyAll(l, batch, now) == Settled(l, batch, now)
  {
    if |batch| > 0 {
      var init := batch[..|batch| - 1];
      ApplyAllSettled(l, init, now);
      AnySentStep(l, batch);
      SameKeySameMatches(l, ApplyAll(l, init, now), batch);
    }
  }

  /** The effect of a whole flush on row `i` of the table. A row no receipt
      addresses is unchanged; a later receipt for the same pair overrides an
      earlier one. */
  lemma BatchOutcome(logs: seq<Log>, batch: seq<Receipt>, now: Time, i: int)
    requires 0 <= i < |logs|
    ensures ApplyBatch(logs, batch, now)[i] == Settled(logs[i], batch, now)
    ensures LastMatch(logs[i], batch).None? ==> ApplyBatch(logs, batch, now)[i] == logs[i]
  {
    ApplyBatchPointwise(logs, batch, now, i);
    ApplyAllSettled(logs[i], batch, now);
    if LastMatch(logs[i], batch).None? {
      NoMatchNoEffect(logs[i], batch);
    }
  }

  lemma {:induction false} NoMatchNoEffect(l: Log, batch: seq<Receipt>)
    requires LastMatch(l, batch).None?
    ensures !AnySent(l, batch) && LastError(l, batch).None?
  {
    if |batch| > 0 {
      var init := batch[..|batch| - 1];
      assert forall k :: 0 <= k < |init| ==> init[k] == batch[k];
      NoMatchNoEffect(l, init);
      AnySentStep(l, batch);
    }
  }

  /** Re-applying a batch (a retry after a failure, possibly later) leaves
      every row's status and error as the first application left them: the
      updates overwrite, they do not accumulate. */
  lemma ReapplyBatch(logs: seq<Log>, batch: seq<Receipt>, t1: Time, t2: Time, i: int)
    requires 0 <= i < |logs|
    ensures ApplyBatch(ApplyBatch(logs, batch, t1), batch, t2)[i].status == ApplyBatch(logs, batch, t1)[i].status
    ensures ApplyBatch(ApplyBatch(logs, batch, t1), batch, t2)[i].error == ApplyBatch(logs, batch, t1)[i].error
  {
    var once := ApplyBatch(logs, batch, t1);
    BatchOutcome(logs, batch, t1, i);
    BatchOutcome(once, batch, t2, i);
    SameKeySameMatches(logs[i], once[i], batch);
  }

  /** With the same timestamp a flush is idempotent. */
  lemma ApplyBatchIdempotent(logs: seq<Log>, batch: seq<Receipt>, now: Time)
    ensures ApplyBatch(ApplyBatch(logs, batch, now), batch, now) == ApplyBatch(logs, batch, now)
  {
    var once := ApplyBatch(logs, batch, now);
    var twice := ApplyBatch(once, batch, now);
    forall i | 0 <= i < |logs|
      ensures twice[i] == once[i]
    {
      BatchOutcome(logs, batch, now, i);
      BatchOutcome(once, batch, now, i);
      SameKeySameMatches(logs[i], once[i], batch);
    }
  }

  // ---------------------------------------------------------------------
  // The failure path of a flush

  /** Where the snapshot goes when the flush transaction fails, as intended:
      after the receipts that arrived while the flush was in flight. */
  function Requeue(live: seq<Receipt>, snapshot: seq<Receipt>): (b: seq<Receipt>)
    ensures |b| == |live| + |snapshot|
    ensures b[..|live|] == live && b[|live|..] == snapshot
    ensures multiset(b) == multiset(live) + multiset(snapshot)
  {
    live + snapshot
  }

  datatype FlushError = ReferenceError

  /** The failure path as written: the catch block names `batch`, which is
      declared inside the `try` block, so it raises a ReferenceError instead
      of re-buffering; the buffer keeps only the receipts that arrived in the
      meantime. */
  function RequeueAsWritten(live: seq<Receipt>, snapshot: seq<Receipt>): (r: (seq<Receipt>, Option<FlushError>))
    ensures r.1 == Some(ReferenceError)
    ensures forall x :: x in snapshot && x !in live ==> x !in r.0
  {
    (live, Some(ReferenceError))
  }

  /** The three-receipt scenario of a failed flush: as written all three are
      lost; as intended all three wait in the buffer for the next flush. */
  lemma FailedFlushScenario()
    ensures
      var a := Receipt("A", "c1", ReceiptSent, None);
      var b := Receipt("B", "c1", ReceiptSent, None);
      var c := Receipt("C", "c1", ReceiptFailed, Some(VENDOR_FAILURE));
      && RequeueAsWritten([], [a, b, c]).0 == []
      && Requeue([], [a, b, c]) == [a, b, c]
  {
  }

  // ---------------------------------------------------------------------
  // The consumer service

  datatype ConsumerError = ValidationError

  /** What handling one delivery receipt did. `FlushThrew` is the error the
      handler rethrows when a flush it ran raised one. */
  datatype ReceiveOutcome = Rejected | Buffered | Flushed | FlushThrew

  class ConsumerService {
    /** deliveryReceiptBatch */
    var batch: seq<Receipt>
    /** Deferred flushes armed with setTimeout that have not fired yet. */
    var armedTimers: nat
    /** Messages published on the delivery-receipt queue. */
    var published: seq<Json>
    /** The CommunicationLog table. */
    const logs: array<Log>
    const vendor: VendorService

    constructor (table: array<Log>, gateway: VendorService)
      ensures batch == [] && armedTimers == 0 && published == []
      ensures logs == table && vendor == gateway
    {
      batch := [];
      armedTimers := 0;
      published := [];
      logs := table;
      vendor := gateway;
    }

    /** The campaign consumer: validate the campaign message, send through the vendor and
        publish a receipt for the outcome. A malformed task is rejected (the
        error goes back to the broker) before anything is sent. */
    method HandleCampaignMessage(data: Json, draw: real, earlyFault: bool, postOk: bool)
      returns (outcome: Result<bool, ConsumerError>)
      requires 0.0 <= draw < 1.0
      modifies this`published, vendor
      ensures ParseCampaignMessage(data).None? ==>
        outcome == Failure(ValidationError) && published == old(published) &&
        unchanged(vendor)
      ensures ParseCampaignMessage(data).Some? ==>
        var m := ParseCampaignMessage(data).value;
        && outcome == Success(!earlyFault && draw < SUCCESS_RATE)
        && published == old(published) +
             [EncodeReceipt(OutcomeReceipt(m.customerId, m.campaignId, outcome.value))]
        && (earlyFault ==>
              vendor.posted == old(vendor.posted) && vendor.delivered == old(vendor.delivered))
        && (!earlyFault ==>
              vendor.posted == old(vendor.posted) + [OutcomeReceipt(m.customerId, m.campaignId, outcome.value)])
        && (!earlyFault ==>
              vendor.delivered == old(vendor.delivered) +
                (if postOk then [OutcomeReceipt(m.customerId, m.campaignId, outcome.value)] else []))
    {
      var parsed := ParseCampaignMessage(data);
      if parsed.None? {
        return Failure(ValidationError);
      }
      var m := parsed.value;
      var isSuccess := vendor.SendMessage(
        MessagePayload(m.customerId, m.campaignId, m.message, m.customerName), draw, earlyFault, postOk);
      published := published + [EncodeReceipt(OutcomeReceipt(m.customerId, m.campaignId, isSuccess))];
      outcome := Success(isSuccess);
    }

    /** The delivery-receipt consumer as intended (see Findings; the code as
        written is `ReceiveAsWritten`): validate, append to the buffer, flush
        at once when the buffer reaches BATCH_SIZE, otherwise arm a deferred
        flush. `commits` says whether an immediate flush's transaction commits;
        a failed one keeps its receipts buffered. */
    method Receive(data: Json, now: Time, commits: bool) returns (outcome: ReceiveOutcome)
      modifies this`batch, this`armedTimers, logs
      ensures ParseReceipt(data).None? ==>
        outcome == Rejected && batch == old(batch) && armedTimers == old(armedTimers) &&
        logs[..] == old(logs[..])
      ensures ParseReceipt(data).Some? ==>
        var pushed := old(batch) + [ParseReceipt(data).value];
        && (|pushed| >= BATCH_SIZE ==>
              && outcome == Flushed && armedTimers == old(armedTimers)
              && (commits ==> batch == [] && logs[..] == ApplyBatch(old(logs[..]), pushed, now))
              && (!commits ==> batch == pushed && logs[..] == old(logs[..])))
        && (|pushed| < BATCH_SIZE ==>
              && outcome == Buffered && batch == pushed && armedTimers == old(armedTimers) + 1
              && logs[..] == old(logs[..]))
    {
      var parsed := ParseReceipt(data);
      if parsed.None? {
        return Rejected;
      }
      batch := batch + [parsed.value];
      if |batch| >= BATCH_SIZE {
        ProcessBatch(now, commits);
        outcome := Flushed;
      } else {
        armedTimers := armedTimers + 1;
        outcome := Buffered;
      }
    }

    /** A deferred flush fires, as intended (see Findings; as written:
        `OnTimerAsWritten`). On an empty buffer it does nothing; a failed
        flush keeps its receipts buffered. */
    method OnTimer(now: Time, commits: bool)
      requires armedTimers > 0
      modifies this`batch, this`armedTimers, logs
      ensures armedTimers == old(armedTimers) - 1
      ensures old(batch) == [] ==> batch == [] && logs[..] == old(logs[..])
      ensures old(batch) != [] && commits ==>
        batch == [] && logs[..] == ApplyBatch(old(logs[..]), old(batch), now)
      ensures old(batch) != [] && !commits ==>
        batch == old(batch) && logs[..] == old(logs[..])
    {
      armedTimers := armedTimers - 1;
      ProcessBatch(now, commits);
    }

    /** processDeliveryReceiptBatch as intended (see Findings; as written:
        `ProcessBatchAsWritten`), run to completion with nothing arriving
        while the transaction is in flight. */
    method ProcessBatch(now: Time, commits: bool)
      modifies this`batch, logs
      ensures old(batch) == [] ==> batch == [] && logs[..] == old(logs[..])
      ensures old(batch) != [] && commits ==>
        batch == [] && logs[..] == ApplyBatch(old(logs[..]), old(batch), now)
      ensures old(batch) != [] && !commits ==>
        batch == old(batch) && logs[..] == old(logs[..])
    {
      if |batch| == 0 {
        return;
      }
      var snapshot := TakeSnapshot();
      FinishFlush(snapshot, now, commits);
    }

    /** The delivery-receipt consumer as written: like `Receive`, except that
        a failed immediate flush loses the whole buffer and its ReferenceError
        reaches the handler, which logs and rethrows it. */
    method ReceiveAsWritten(data: Json, now: Time, commits: bool) returns (outcome: ReceiveOutcome)
      modifies this`batch, this`armedTimers, logs
      ensures ParseReceipt(data).None? ==>
        outcome == Rejected && batch == old(batch) && armedTimers == old(armedTimers) &&
        logs[..] == old(logs[..])
      ensures ParseReceipt(data).Some? ==>
        var pushed := old(batch) + [ParseReceipt(data).value];
        && (|pushed| >= BATCH_SIZE ==>
              && batch == [] && armedTimers == old(armedTimers)
              && (commits ==> outcome == Flushed && logs[..] == ApplyBatch(old(logs[..]), pushed, now))
              && (!commits ==> outcome == FlushThrew && logs[..] == old(logs[..])))
        && (|pushed| < BATCH_SIZE ==>
              && outcome == Buffered && batch == pushed && armedTimers == old(armedTimers) + 1
              && logs[..] == old(logs[..]))
    {
      var parsed := ParseReceipt(data);
      if parsed.None? {
        return Rejected;
      }
      batch := batch + [parsed.value];
      if |batch| >= BATCH_SIZE {
        var err := ProcessBatchAsWritten(now, commits);
        outcome := if err.Some? then FlushThrew else Flushed;
      } else {
        armedTimers := armedTimers + 1;
        outcome := Buffered;
      }
    }

    /** A deferred flush fires, as written: a failed flush drops the buffered
        receipts and its ReferenceError escapes the timer callback as an
        unhandled rejection, returned here as `err`. */
    method OnTimerAsWritten(now: Time, commits: bool) returns (err: Option<FlushError>)
      requires armedTimers > 0
      modifies this`batch, this`armedTimers, logs
      ensures armedTimers == old(armedTimers) - 1
      ensures old(batch) == [] ==> err == None && batch == [] && logs[..] == old(logs[..])
      ensures old(batch) != [] && commits ==>
        err == None && batch == [] && logs[..] == ApplyBatch(old(logs[..]), old(batch), now)
      ensures old(batch) != [] && !commits ==>
        err == Some(ReferenceError) && batch == [] && logs[..] == old(logs[..])
    {
      armedTimers := armedTimers - 1;
      err := ProcessBatchAsWritten(now, commits);
    }

    /** processDeliveryReceiptBatch as written: on a failed transaction the
        buffer, already cleared, stays empty and the ReferenceError of the
        catch block is raised. */
    method ProcessBatchAsWritten(now: Time, commits: bool) returns (err: Option<FlushError>)
      modifies this`batch, logs
      ensures old(batch) == [] ==> err == None && batch == [] && logs[..] == old(logs[..])
      ensures old(batch) != [] && commits ==>
        err == None && batch == [] && logs[..] == ApplyBatch(old(logs[..]), old(batch), now)
      ensures old(batch) != [] && !commits ==>
        err == Some(ReferenceError) && batch == [] && logs[..] == old(logs[..])
    {
      if |batch| == 0 {
        return None;
      }
      var snapshot := TakeSnapshot();
      err := FinishFlushAsWritten(snapshot, now, commits);
    }

    /** The start of a flush: copy the buffer and clear it, so that receipts
        arriving during the transaction start a new buffer. */
    method TakeSnapshot() returns (snapshot: seq<Receipt>)
      modifies this`batch
      ensures snapshot == old(batch) && batch == []
    {
      snapshot := batch;
      batch := [];
    }

    /** The end of a flush, as intended: on commit the table holds the
        snapshot's updates; on failure no row changes (one transaction) and the
        snapshot goes back after the receipts that arrived meanwhile. */
    method FinishFlush(snapshot: seq<Receipt>, now: Time, commits: bool)
      modifies this`batch, logs
      ensures commits ==> logs[..] == ApplyBatch(old(logs[..]), snapshot, now) && batch == old(batch)
      ensures !commits ==> logs[..] == old(logs[..]) && batch == Requeue(old(batch), snapshot)
    {
      if commits {
        ApplyInPlace(snapshot, now);
      } else {
        batch := Requeue(batch, snapshot);
      }
    }

    /** The end of a flush as written: a failed transaction raises a
        ReferenceError from the catch block and the snapshot is dropped. */
    method FinishFlushAsWritten(snapshot: seq<Receipt>, now: Time, commits: bool)
      returns (err: Option<FlushError>)
      modifies this`batch, logs
      ensures commits ==> logs[..] == ApplyBatch(old(logs[..]), snapshot, now) && batch == old(batch) && err == None
      ensures !commits ==> logs[..] == old(logs[..]) && (batch, err) == RequeueAsWritten(old(batch), snapshot)
    {
      err := None;
      if commits {
        ApplyInPlace(snapshot, now);
      } else {
        var r := RequeueAsWritten(batch, snapshot);
        batch, err := r.0, r.1;
      }
    }

    /** The committed transaction: one `updateMany` per receipt, in order,
        each over every row of the table. */
    method ApplyInPlace(snapshot: seq<Receipt>, now: Time)
      modifies logs
      ensures logs[..] == ApplyBatch(old(logs[..]), snapshot, now)
    {
      var i := 0;
      while i < |snapshot|
        invariant 0 <= i <= |snapshot|
        invariant logs[..] == ApplyBatch(old(logs[..]), snapshot[..i], now)
      {
        ghost var before := logs[..];
        var j := 0;
        while j < logs.Length
          invariant 0 <= j <= logs.Length
          invariant forall k :: 0 <= k < j ==> logs[k] == UpdateLog(before[k], snapshot[i], now)
          invariant forall k :: j <= k < logs.Length ==> logs[k] == before[k]
        {
          logs[j] := UpdateLog(logs[j], snapshot[i], now);
          j := j + 1;
        }
        assert logs[..] == ApplyReceipt(before, snapshot[i], now);
        assert snapshot[..i + 1][..i] == snapshot[..i];
        i := i + 1;
      }
      assert snapshot[..|snapshot|] == snapshot;
    }
  }
}
