/** The simulated messaging vendor (backend/src/services/vendor.service.ts).
    The random success draw is an input, and the HTTP receipt endpoint is an
    outbox: `posted` holds every receipt the vendor tried to post and
    `delivered` the ones the endpoint accepted. */
module Vendor {
  import opened Wrappers
  import opened Records

  /** Probability that a send succeeds. */
  const SUCCESS_RATE: real := 0.9

  /** What the campaign consumer hands to the vendor. */
  datatype MessagePayload = MessagePayload(
    customerId: Id,
    campaignId: Id,
    message: string,
    customerName: string)

  class VendorService {
    var posted: seq<Receipt>
    var delivered: seq<Receipt>

    constructor ()
      ensures posted == [] && delivered == []
    {
      posted := [];
      delivered := [];
    }

    /** Sends one message. `draw` is the value `Math.random()` returned;
        `earlyFault` says that something before the receipt post (the
        simulated delay or the logging) threw; `postOk` says whether the
        receipt endpoint accepted the post. */
    method SendMessage(payload: MessagePayload, draw: real, earlyFault: bool, postOk: bool)
      returns (sent: bool)
      requires 0.0 <= draw < 1.0
      modifies this
      ensures sent <==> !earlyFault && draw < SUCCESS_RATE
      ensures earlyFault ==> posted == old(posted) && delivered == old(delivered)
      ensures !earlyFault ==>
        posted == old(posted) + [OutcomeReceipt(payload.customerId, payload.campaignId, sent)]
      ensures !earlyFault ==>
        delivered == old(delivered) +
          (if postOk then [OutcomeReceipt(payload.customerId, payload.campaignId, sent)] else [])
    {
      if earlyFault {
        // the catch block: the error is logged and the send reports failure
        return false;
      }
      var isSuccess := draw < SUCCESS_RATE;
      if isSuccess {
        SendDeliveryReceipt(Receipt(payload.customerId, payload.campaignId, ReceiptSent, None), postOk);
        sent := true;
      } else {
        SendDeliveryReceipt(
          Receipt(payload.customerId, payload.campaignId, ReceiptFailed, Some(VENDOR_FAILURE)), postOk);
        sent := false;
      }
    }

    /** Posts one receipt; a failed post is logged and swallowed. */
    method SendDeliveryReceipt(receipt: Receipt, postOk: bool)
      modifies this
      ensures posted == old(posted) + [receipt]
      ensures delivered == old(delivered) + (if postOk then [receipt] else [])
    {
      posted := posted + [receipt];
      if postOk {
        delivered := delivered + [receipt];
      }
    }
  }
}
