/** The rows of the TypeScript backend's tables that the delivery pipeline
    reads and writes (campaigns and communication logs), and the transient
    delivery receipt that travels between the vendor and the log table. */
module Records {
  import opened Wrappers

  /** Database ids and customer ids are strings. */
  type Id = string

  /** A timestamp (`new Date()`), supplied by the caller. */
  type Time = int

  datatype CampaignStatus = Draft | Sending | Completed | CampaignFailed

  datatype Campaign = Campaign(
    name: string,
    message: string,
    status: CampaignStatus,
    userId: Id,
    segmentId: Id)

  datatype LogStatus = Pending | Sent | Failed

  /** A CommunicationLog row; its id is its position in the log table. */
  datatype Log = Log(
    campaignId: Id,
    customerId: Id,
    status: LogStatus,
    sentAt: Option<Time>,
    error: Option<string>)

  /** A fresh log row as dispatch creates it. */
  function PendingLog(campaignId: Id, customerId: Id): (l: Log)
    ensures l.status == Pending && l.sentAt == None && l.error == None
    ensures l.campaignId == campaignId && l.customerId == customerId
  {
    Log(campaignId, customerId, Pending, None, None)
  }

  datatype ReceiptStatus = ReceiptSent | ReceiptFailed

  /** A delivery receipt: the outcome of one send attempt. */
  datatype Receipt = Receipt(
    customerId: Id,
    campaignId: Id,
    status: ReceiptStatus,
    error: Option<string>)

  /** The error text a failed vendor send reports. */
  const VENDOR_FAILURE: string := "Vendor delivery failed"

  /** The receipt that reports a send outcome: SENT with no error on success,
      FAILED with the vendor's failure text otherwise. */
  function OutcomeReceipt(customerId: Id, campaignId: Id, success: bool): (r: Receipt)
    ensures r.customerId == customerId && r.campaignId == campaignId
    ensures r.status == ReceiptSent <==> success
    ensures r.error == None <==> success
    ensures !success ==> r.error == Some(VENDOR_FAILURE)
  {
    if success then Receipt(customerId, campaignId, ReceiptSent, None)
    else Receipt(customerId, campaignId, ReceiptFailed, Some(VENDOR_FAILURE))
  }

  /** The error replies of the HTTP handlers. */
  datatype HttpError = Unauthorized | NotFound | ServerError {
    function Code(): int {
      match this
      case Unauthorized => 401
      case NotFound => 404
      case ServerError => 500
    }
  }
}
