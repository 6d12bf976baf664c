/** The customer's cancel-order page (`CancelOrder.jsx`): the order-id and e-mail inputs,
    the request to `POST /api/orders/{id}/request-cancellation`, and the status and message
    shown for each outcome. */
module CancelOrder {
  import opened Common
  import OrdersRouter

  /** `status`: null, 'requesting', 'success' or 'error'. */
  datatype Status = NoStatus | Requesting | Success | Failed

  /** How the request ended: accepted, or rejected with the HTTP status of the response
      (`None` when no response arrived). */
  datatype Reply = Accepted | Rejected(httpStatus: Option<int>)

  /** The request the page sends: the order id as typed (the path segment) and the body. */
  datatype CancelRequest = CancelRequest(orderId: string, email: string)

  const MissingFields := "Please enter both Order ID and Email"
  const OrderNotFoundMessage := "❌ Order not found. Please check your Order ID."
  const EmailMismatchMessage := "❌ Email does not match the order. Please check and try again."
  const GenericFailureMessage := "❌ Failed to submit cancellation request. Please try again or contact support."

  const SuccessLead := "✅ Cancellation request submitted! Order #"
  const SuccessTail := " has been marked for cancellation. An admin will review and process your request shortly. You'll receive a confirmation email once it's completed."

  /** The success message names the order that was flagged. */
  function SuccessMessage(orderId: string): (m: string)
    ensures |m| == |SuccessLead| + |orderId| + |SuccessTail|
    ensures m[|SuccessLead|..|SuccessLead| + |orderId|] == orderId
  {
    SuccessLead + orderId + SuccessTail
  }

  /** The message for a failed request, chosen by the response's HTTP status. */
  function ErrorMessage(httpStatus: Option<int>): (m: string)
    ensures httpStatus == Some(404) <==> m == OrderNotFoundMessage
    ensures httpStatus == Some(403) <==> m == EmailMismatchMessage
    ensures httpStatus != Some(404) && httpStatus != Some(403) <==> m == GenericFailureMessage
  {
    assert |OrderNotFoundMessage| == 46 && |EmailMismatchMessage| == 61 && |GenericFailureMessage| == 77;
    if httpStatus == Some(404) then OrderNotFoundMessage
    else if httpStatus == Some(403) then EmailMismatchMessage
    else GenericFailureMessage
  }

  /** What the page receives for an outcome of the server's `request_cancellation`. */
  function ReplyOf(r: Result<OrdersRouter.CancelResponse>): (reply: Reply)
    ensures r.Ok? <==> reply == Accepted
    ensures r.Err? ==> reply == Rejected(Some(StatusCode(r.error)))
  {
    if r.Ok? then Accepted else Rejected(Some(StatusCode(r.error)))
  }

  /** The server's two refusals, an unknown order and a mismatched e-mail, reach the
      customer as two different messages, neither of them the generic one. */
  lemma ServerRefusalsTellApart(detail1: string, detail2: string)
    ensures ErrorMessage(ReplyOf(Err(NotFound(detail1))).httpStatus) == OrderNotFoundMessage
    ensures ErrorMessage(ReplyOf(Err(Forbidden(detail2))).httpStatus) == EmailMismatchMessage
    ensures OrderNotFoundMessage != EmailMismatchMessage
  {
    assert |OrderNotFoundMessage| != |EmailMismatchMessage|;
  }

  /** The page's state. */
  class CancelOrderPage {
    var orderId: string
    var email: string
    var loading: bool
    var status: Status
    var message: string

    constructor ()
      ensures orderId == "" && email == "" && !loading && status == NoStatus && message == ""
    {
      orderId := "";
      email := "";
      loading := false;
      status := NoStatus;
      message := "";
    }

    /** The form is shown unless the last request succeeded. */
    predicate FormShown()
      reads this
    {
      status != Success
    }

    /** The submit button is disabled while a request is in flight or a field is empty. */
    predicate SubmitDisabled()
      reads this
    {
      loading || orderId == "" || email == ""
    }

    /** The first half of `handleRequestCancellation`, up to the awaited request. With a
        field empty only an alert shows. Otherwise the page is loading, the status is
        'requesting' and the request is sent with the inputs as they are. */
    method BeginRequest() returns (request: Option<CancelRequest>, alert: Option<string>)
      modifies this
      ensures orderId == old(orderId) && email == old(email) && message == old(message)
      ensures !old(SubmitDisabled()) ==> request.Some?
      ensures old(orderId) == "" || old(email) == "" ==>
        request == None && alert == Some(MissingFields) && loading == old(loading) && status == old(status)
      ensures old(orderId) != "" && old(email) != "" ==>
        request == Some(CancelRequest(old(orderId), old(email))) && alert == None
        && loading && status == Requesting
    {
      if orderId == "" || email == "" {
        return None, Some(MissingFields);
      }
      loading := true;
      status := Requesting;
      request := Some(CancelRequest(orderId, email));
      alert := None;
    }

    /** The second half, once the request has settled. On success the inputs are
        cleared and the message names the order; on failure the message follows the HTTP
        status. Either way loading ends. */
    method FinishRequest(reply: Reply)
      modifies this
      ensures !loading
      ensures reply == Accepted ==>
        status == Success && message == SuccessMessage(old(orderId)) && orderId == "" && email == ""
      ensures reply.Rejected? ==>
        status == Failed && message == ErrorMessage(reply.httpStatus)
        && orderId == old(orderId) && email == old(email)
    {
      if reply == Accepted {
        status := Success;
        message := SuccessMessage(orderId);
        orderId := "";
        email := "";
      } else {
        status := Failed;
        message := ErrorMessage(reply.httpStatus);
      }
      loading := false;
    }

    /** The whole handler when the request, if sent, ends with `reply`. */
    method HandleRequestCancellation(reply: Reply) returns (request: Option<CancelRequest>, alert: Option<string>)
      modifies this
      ensures old(orderId) == "" || old(email) == "" ==>
        && request == None && alert == Some(MissingFields)
        && orderId == old(orderId) && email == old(email) && loading == old(loading)
        && status == old(status) && message == old(message)
      ensures old(orderId) != "" && old(email) != "" ==>
        && request == Some(CancelRequest(old(orderId), old(email))) && alert == None && !loading
        && (reply == Accepted ==> status == Success && message == SuccessMessage(old(orderId))
                                  && orderId == "" && email == "" && !FormShown())
        && (reply.Rejected? ==> status == Failed && message == ErrorMessage(reply.httpStatus)
                                && orderId == old(orderId) && email == old(email) && FormShown())
    {
      request, alert := BeginRequest();
      if request.Some? {
        FinishRequest(reply);
      }
    }

    /** "Request Another Cancellation": the status and message are cleared, which shows the
        form again. */
    method RequestAnother()
      modifies this
      ensures status == NoStatus && message == "" && FormShown()
      ensures orderId == old(orderId) && email == old(email) && loading == old(loading)
    {
      status := NoStatus;
      message := "";
    }
  }
}
