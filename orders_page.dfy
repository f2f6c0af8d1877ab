/** The shopper's orders page of web/pages/orders.js: the cancel button, the
    cancel dialog and the request it sends. */
module OrdersPage {
  import opened Wrappers
  import opened Models
  import OrderRoutes
  import CancelReasons

  /** `PUT /orders/:id/cancel` with `{ reason }`. */
  datatype CancelCall = CancelCall(orderId: Id, reason: string)

  /** Line 109: the button is shown only for these two statuses. */
  predicate CancelOffered(status: string) {
    status == Placed || status == Processing
  }

  /** The server accepts every cancel the page offers; it also accepts
      statuses the page does not offer, such as a status an admin typed. */
  lemma OfferedIsCancellable(status: string)
    ensures CancelOffered(status) ==> OrderRoutes.Cancellable(status)
    ensures OrderRoutes.Cancellable("Returned") && !CancelOffered("Returned")
  {
  }

  /** A reason that passes the dialog makes the server record it as the
      user's reason. */
  lemma SentReasonIsRecorded(choice: string, custom: string)
    requires CancelReasons.Problem(choice, custom).None?
    ensures OrderRoutes.Given(Some(CancelReasons.FinalReason(choice, custom)))
  {
    CancelReasons.AcceptedReasonIsNotBlank(choice, custom);
  }

  function ProblemMessage(p: CancelReasons.ReasonProblem): string {
    match p
    case NoChoice => "Please select a cancellation reason"
    case BlankCustom => "Please provide a custom reason"
  }

  class OrdersView {
    var show: bool
    var orderId: Option<Id>
    var cancelReason: string
    var customReason: string
    var loading: bool
    var sent: seq<CancelCall>
    var alerts: seq<string>

    /** The dialog is open exactly when it belongs to an order, and no request
        is in flight between events. */
    predicate Valid()
      reads this
    {
      (show <==> orderId.Some?) && !loading
    }

    constructor ()
      ensures Valid() && !show && cancelReason == "" && customReason == "" && sent == [] && alerts == []
    {
      show := false;
      orderId := None;
      cancelReason := "";
      customReason := "";
      loading := false;
      sent := [];
      alerts := [];
    }

    /** Choosing from the list and typing only change the two fields. */
    method ChooseReason(choice: string, custom: string)
      requires Valid()
      modifies this
      ensures Valid()
      ensures cancelReason == choice && customReason == custom
      ensures show == old(show) && orderId == old(orderId) && sent == old(sent) && alerts == old(alerts)
    {
      cancelReason := choice;
      customReason := custom;
    }

    method OpenCancelModal(id: Id)
      requires Valid()
      modifies this
      ensures Valid()
      ensures show && orderId == Some(id) && cancelReason == "" && customReason == ""
      ensures sent == old(sent) && alerts == old(alerts)
    {
      show, orderId := true, Some(id);
      cancelReason := "";
      customReason := "";
    }

    /** Also run by a successful cancel, while its request flag is still up. */
    method CloseCancelModal()
      modifies this
      ensures !show && orderId == None && cancelReason == "" && customReason == ""
      ensures sent == old(sent) && alerts == old(alerts) && loading == old(loading)
      ensures Valid() <==> !loading
    {
      show, orderId := false, None;
      cancelReason := "";
      customReason := "";
    }

    /** `handleCancelOrder`. `failure` is the outcome of the request: `None`
        when it succeeds, otherwise the error message. A refused form sends
        nothing and changes nothing but the alerts. */
    method HandleCancelOrder(failure: Option<string>)
      requires Valid() && show
      modifies this
      ensures Valid()
      ensures var p := CancelReasons.Problem(old(cancelReason), old(customReason));
              p.Some? ==> sent == old(sent) && alerts == old(alerts) + [ProblemMessage(p.value)]
                          && show && orderId == old(orderId)
                          && cancelReason == old(cancelReason) && customReason == old(customReason)
      ensures var p := CancelReasons.Problem(old(cancelReason), old(customReason));
              p.None? ==> sent == old(sent) + [CancelCall(old(orderId).value, CancelReasons.FinalReason(old(cancelReason), old(customReason)))]
      ensures var p := CancelReasons.Problem(old(cancelReason), old(customReason));
              p.None? && failure.None? ==> !show && alerts == old(alerts) && cancelReason == "" && customReason == ""
      ensures var p := CancelReasons.Problem(old(cancelReason), old(customReason));
              p.None? && failure.Some? ==> show && orderId == old(orderId) && alerts == old(alerts) + ["Failed to cancel order: " + failure.value]
                                           && cancelReason == old(cancelReason) && customReason == old(customReason)
    {
      var problem := CancelReasons.Problem(cancelReason, customReason);
      if problem.Some? {
        alerts := alerts + [ProblemMessage(problem.value)];
        return;
      }
      var finalReason := CancelReasons.FinalReason(cancelReason, customReason);
      loading := true;
      sent := sent + [CancelCall(orderId.value, finalReason)];
      if failure.None? {
        CloseCancelModal();
      } else {
        alerts := alerts + ["Failed to cancel order: " + failure.value];
      }
      loading := false;
    }
  }
}
